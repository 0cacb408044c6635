/** The sign-in screen: four modes, a mode-dependent validator that fills an
    error map, the sign-up/forgot/verify/resend handlers and the one-second OTP
    resend countdown. Remote calls appear as the success flag they report. */
module AuthPage {
  import opened Text
  import opened Domain
  import Lists
  import SAIdNumber
  import Validation

  datatype AuthMode = Login | Signup | Forgot | OtpVerify

  /** The keys `validateForm` may put in its error map. */
  datatype AuthField = EmailField | PasswordField | FullNameField | PhoneField
                     | IdNumberField | ConfirmPasswordField | OtpField

  const OtpResendSeconds: nat := 60

  /** The messages `validateForm` records. */
  const EmailMessage: string := "Enter a valid email"
  const PasswordMessage: string := "Password must be 8+ chars"
  const NameMessage: string := "Invalid name"
  const PhoneMessage: string := "Invalid phone"
  const IdFormatMessage: string := "Invalid ID"
  const IdChecksumMessage: string := "Invalid SA ID"
  const ConfirmMessage: string := "Passwords do not match"
  const OtpMessage: string := "Enter 6-digit code"

  /** The mode reached by the "Sign Up" / "Sign In" toggle below the form. */
  function ToggledMode(m: AuthMode): (r: AuthMode)
    ensures m == Login <==> r == Signup
    ensures r == Login || r == Signup
  {
    if m == Login then Signup else Login
  }

  /** The seven text inputs of the form. */
  datatype Form = Form(email: string, password: string, confirmPassword: string,
                       fullName: string, phone: string, idNumber: string, otpCode: string)

  /** What each schema check says about its input. */
  datatype Verdicts = Verdicts(email: bool, password: bool, name: bool, phone: bool,
                               idFormat: bool, idChecksum: bool)

  /** The schema checks on the inputs; `emailAccepted` is the email schema's verdict. */
  function VerdictsOf(emailAccepted: bool, form: Form): Verdicts
  {
    Verdicts(emailAccepted, |form.password| >= 8, Validation.IsNameLength(form.fullName),
             Validation.IsSAPhone(form.phone), SAIdNumber.IsThirteenDigits(form.idNumber),
             SAIdNumber.IsValidSAId(form.idNumber))
  }

  /** The rule for one field, as a table: which modes check it, what it
      requires, and the message recorded when it fails. */
  function FieldError(f: AuthField, mode: AuthMode, v: Verdicts, form: Form): Option<string>
  {
    match f
    case EmailField => if v.email then None else Some(EmailMessage)
    case PasswordField => if mode != Forgot && !v.password then Some(PasswordMessage) else None
    case FullNameField => if mode == Signup && !v.name then Some(NameMessage) else None
    case PhoneField => if mode == Signup && !v.phone then Some(PhoneMessage) else None
    case IdNumberField =>
      if mode != Signup then None
      else if !v.idFormat then Some(IdFormatMessage)
      else if !v.idChecksum then Some(IdChecksumMessage)
      else None
    case ConfirmPasswordField =>
      if mode == Signup && form.password != form.confirmPassword then Some(ConfirmMessage) else None
    case OtpField =>
      if mode == OtpVerify && |form.otpCode| != 6 then Some(OtpMessage) else None
  }

  /** `m` with the entry for `f`, when its rule produced a message. */
  function Record(m: map<AuthField, string>, f: AuthField, e: Option<string>): map<AuthField, string>
  {
    match e
    case Some(msg) => m[f := msg]
    case None => m
  }

  /** The error map for given schema verdicts: the rules applied in
      `validateForm`'s order. */
  function ErrorMap(mode: AuthMode, v: Verdicts, form: Form): map<AuthField, string>
  {
    var m1 := Record(map[], EmailField, FieldError(EmailField, mode, v, form));
    var m2 := Record(m1, PasswordField, FieldError(PasswordField, mode, v, form));
    var m3 := Record(m2, FullNameField, FieldError(FullNameField, mode, v, form));
    var m4 := Record(m3, PhoneField, FieldError(PhoneField, mode, v, form));
    var m5 := Record(m4, IdNumberField, FieldError(IdNumberField, mode, v, form));
    var m6 := Record(m5, ConfirmPasswordField, FieldError(ConfirmPasswordField, mode, v, form));
    Record(m6, OtpField, FieldError(OtpField, mode, v, form))
  }

  /** The error map `validateForm` stores for the form's inputs. */
  function FormErrors(mode: AuthMode, emailAccepted: bool, form: Form): map<AuthField, string>
  {
    ErrorMap(mode, VerdictsOf(emailAccepted, form), form)
  }

  lemma RecordEntry(m: map<AuthField, string>, f: AuthField, e: Option<string>, g: AuthField)
    ensures g in Record(m, f, e) <==> (g == f && e.Some?) || g in m
    ensures g in Record(m, f, e) ==> Record(m, f, e)[g] == if g == f && e.Some? then e.value else m[g]
  {
  }

  /** Every field has an entry exactly when its rule fails, holding that rule's message. */
  lemma FormErrorsEntry(f: AuthField, mode: AuthMode, emailAccepted: bool, form: Form)
    ensures f in FormErrors(mode, emailAccepted, form) <==> FieldError(f, mode, VerdictsOf(emailAccepted, form), form).Some?
    ensures f in FormErrors(mode, emailAccepted, form) ==>
      FormErrors(mode, emailAccepted, form)[f] == FieldError(f, mode, VerdictsOf(emailAccepted, form), form).value
  {
    var v := VerdictsOf(emailAccepted, form);
    var m1 := Record(map[], EmailField, FieldError(EmailField, mode, v, form));
    var m2 := Record(m1, PasswordField, FieldError(PasswordField, mode, v, form));
    var m3 := Record(m2, FullNameField, FieldError(FullNameField, mode, v, form));
    var m4 := Record(m3, PhoneField, FieldError(PhoneField, mode, v, form));
    var m5 := Record(m4, IdNumberField, FieldError(IdNumberField, mode, v, form));
    var m6 := Record(m5, ConfirmPasswordField, FieldError(ConfirmPasswordField, mode, v, form));
    var m7 := Record(m6, OtpField, FieldError(OtpField, mode, v, form));
    assert m7 == ErrorMap(mode, v, form);
    RecordEntry(map[], EmailField, FieldError(EmailField, mode, v, form), f);
    RecordEntry(m1, PasswordField, FieldError(PasswordField, mode, v, form), f);
    RecordEntry(m2, FullNameField, FieldError(FullNameField, mode, v, form), f);
    RecordEntry(m3, PhoneField, FieldError(PhoneField, mode, v, form), f);
    RecordEntry(m4, IdNumberField, FieldError(IdNumberField, mode, v, form), f);
    RecordEntry(m5, ConfirmPasswordField, FieldError(ConfirmPasswordField, mode, v, form), f);
    RecordEntry(m6, OtpField, FieldError(OtpField, mode, v, form), f);
  }

  /** The validator's verdict stated field by field. */
  predicate FormAccepted(mode: AuthMode, emailAccepted: bool, form: Form)
  {
    emailAccepted
    && (mode != Forgot ==> |form.password| >= 8)
    && (mode == Signup ==> Validation.IsNameLength(form.fullName) && Validation.IsSAPhone(form.phone)
                           && SAIdNumber.IsValidSAId(form.idNumber) && form.password == form.confirmPassword)
    && (mode == OtpVerify ==> |form.otpCode| == 6)
  }

  /** The form is valid (the error map is empty) exactly when every rule that
      applies in the mode holds: email always, password except when resetting,
      name, phone, checksum-valid ID and matching confirmation when signing up,
      a six-character code when verifying. */
  lemma NoErrorsIffAccepted(mode: AuthMode, emailAccepted: bool, form: Form)
    ensures FormErrors(mode, emailAccepted, form) == map[] <==> FormAccepted(mode, emailAccepted, form)
  {
    var e := FormErrors(mode, emailAccepted, form);
    if e == map[] {
      FormErrorsEntry(EmailField, mode, emailAccepted, form);
      FormErrorsEntry(PasswordField, mode, emailAccepted, form);
      FormErrorsEntry(FullNameField, mode, emailAccepted, form);
      FormErrorsEntry(PhoneField, mode, emailAccepted, form);
      FormErrorsEntry(IdNumberField, mode, emailAccepted, form);
      FormErrorsEntry(ConfirmPasswordField, mode, emailAccepted, form);
      FormErrorsEntry(OtpField, mode, emailAccepted, form);
    } else {
      var f :| f in e;
      FormErrorsEntry(f, mode, emailAccepted, form);
    }
  }

  /** At most one message for the ID: IdFormatMessage when the format fails,
      IdChecksumMessage only when the format passed and the checksum did not. */
  lemma IdNumberMessages(mode: AuthMode, emailAccepted: bool, form: Form)
    ensures IdNumberField in FormErrors(mode, emailAccepted, form) <==>
      mode == Signup && !SAIdNumber.IsValidSAId(form.idNumber)
    ensures IdNumberField in FormErrors(mode, emailAccepted, form) ==>
      FormErrors(mode, emailAccepted, form)[IdNumberField] ==
        (if SAIdNumber.IsThirteenDigits(form.idNumber) then IdChecksumMessage else IdFormatMessage)
  {
    FormErrorsEntry(IdNumberField, mode, emailAccepted, form);
  }

  /** The body of `validateForm` up to `setErrors`, given what each schema
      check says: each rule that applies in `mode` and fails adds its message. */
  method CollectErrors(mode: AuthMode, v: Verdicts, form: Form) returns (newErrors: map<AuthField, string>)
    ensures newErrors == ErrorMap(mode, v, form)
  {
    newErrors := map[];
    if !v.email {
      newErrors := newErrors[EmailField := EmailMessage];
    }
    ghost var m1 := newErrors;
    assert m1 == Record(map[], EmailField, FieldError(EmailField, mode, v, form));
    if mode != Forgot && !v.password {
      newErrors := newErrors[PasswordField := PasswordMessage];
    }
    ghost var m2 := newErrors;
    assert m2 == Record(m1, PasswordField, FieldError(PasswordField, mode, v, form));
    ghost var m4, m5 := newErrors, newErrors;
    if mode == Signup {
      if !v.name {
        newErrors := newErrors[FullNameField := NameMessage];
      }
      ghost var m3 := newErrors;
      assert m3 == Record(m2, FullNameField, FieldError(FullNameField, mode, v, form));
      if !v.phone {
        newErrors := newErrors[PhoneField := PhoneMessage];
      }
      m4 := newErrors;
      assert m4 == Record(m3, PhoneField, FieldError(PhoneField, mode, v, form));
      if !v.idFormat {
        newErrors := newErrors[IdNumberField := IdFormatMessage];
      }
      if IdNumberField !in newErrors && !v.idChecksum {
        newErrors := newErrors[IdNumberField := IdChecksumMessage];
      }
      m5 := newErrors;
      assert m5 == Record(m4, IdNumberField, FieldError(IdNumberField, mode, v, form)) by {
        assert IdNumberField !in m4;
      }
      if form.password != form.confirmPassword {
        newErrors := newErrors[ConfirmPasswordField := ConfirmMessage];
      }
    }
    ghost var m6 := newErrors;
    if mode == OtpVerify && |form.otpCode| != 6 {
      newErrors := newErrors[OtpField := OtpMessage];
    }
    assert newErrors == Record(m6, OtpField, FieldError(OtpField, mode, v, form));
  }

  class AuthScreen {
    var mode: AuthMode
    var email: string
    var password: string
    var confirmPassword: string
    var fullName: string
    var phone: string
    var idNumber: string
    var otpCode: string
    var isSubmitting: bool
    var errors: map<AuthField, string>
    var otpCountdown: nat
    var pendingEmail: Option<string>

    /** The OTP screen and a running countdown both presuppose an email that a
        sign-up was sent to; the countdown never exceeds its starting value. */
    ghost predicate Valid()
      reads this
    {
      (mode == OtpVerify ==> pendingEmail.Some?)
      && (otpCountdown > 0 ==> pendingEmail.Some?)
      && otpCountdown <= OtpResendSeconds
    }

    /** `!!pendingEmail`: an address is pending and is not the empty string. */
    predicate HasPending()
      reads this
    {
      pendingEmail.Some? && pendingEmail.value != ""
    }

    constructor()
      ensures Valid()
      ensures mode == Login && errors == map[] && otpCountdown == 0 && pendingEmail.None?
      ensures email == password == confirmPassword == fullName == phone == idNumber == otpCode == ""
      ensures !isSubmitting
    {
      mode := Login;
      email, password, confirmPassword := "", "", "";
      fullName, phone, idNumber, otpCode := "", "", "", "";
      isSubmitting := false;
      errors := map[];
      otpCountdown := 0;
      pendingEmail := None;
    }

    /** The ID input: every non-digit typed is dropped (`replace(/\D/g, "")`). */
    method EditIdNumber(input: string)
      modifies this
      ensures idNumber == Lists.Filter(input, IsDigit)
      ensures AllDigits(idNumber) && Lists.IsSubsequence(idNumber, input)
      ensures AllDigits(input) ==> idNumber == input
      ensures mode == old(mode) && errors == old(errors) && otpCountdown == old(otpCountdown)
      ensures pendingEmail == old(pendingEmail)
    {
      idNumber := Lists.Filter(input, IsDigit);
      if AllDigits(input) {
        FilterKeepsAll(input);
      }
    }

    /** The values of the seven inputs. */
    function Inputs(): Form
      reads this
    {
      Form(email, password, confirmPassword, fullName, phone, idNumber, otpCode)
    }

    /** `validateForm`: collects the errors and stores them.
        `emailAccepted` is the email schema's verdict on `email`. */
    method ValidateForm(emailAccepted: bool) returns (valid: bool)
      requires Valid()
      modifies this
      ensures Valid()
      ensures errors == FormErrors(mode, emailAccepted, Inputs())
      ensures valid <==> errors == map[]
      ensures mode == old(mode) && Inputs() == old(Inputs()) && isSubmitting == old(isSubmitting)
      ensures otpCountdown == old(otpCountdown) && pendingEmail == old(pendingEmail)
    {
      var checksumOk := false;
      if SAIdNumber.IsThirteenDigits(idNumber) {
        checksumOk := SAIdNumber.ValidateSAIdNumber(idNumber);
      }
      var verdicts := Verdicts(emailAccepted, |password| >= 8, Validation.IsNameLength(fullName),
                               Validation.IsSAPhone(phone), SAIdNumber.IsThirteenDigits(idNumber), checksumOk);
      var newErrors := CollectErrors(mode, verdicts, Inputs());
      errors := newErrors;
      valid := |errors.Keys| == 0;
      if !valid {
        assert errors != map[] by {
          var k :| k in errors.Keys;
        }
      }
    }

    /** `handleSignup` after the remote sign-up call: on success the OTP screen
        opens for this email with a fresh countdown; on failure nothing changes. */
    method HandleSignup(remoteOk: bool)
      requires Valid()
      modifies this
      ensures Valid()
      ensures !isSubmitting
      ensures remoteOk ==> pendingEmail == Some(old(email)) && otpCountdown == OtpResendSeconds && mode == OtpVerify
      ensures !remoteOk ==> pendingEmail == old(pendingEmail) && otpCountdown == old(otpCountdown) && mode == old(mode)
      ensures errors == old(errors) && email == old(email) && otpCode == old(otpCode)
    {
      isSubmitting := true;
      if remoteOk {
        pendingEmail := Some(email);
        otpCountdown := OtpResendSeconds;
        mode := OtpVerify;
      }
      isSubmitting := false;
    }

    /** `handleLogin`: the outcome is only reported; the session change reaches
        the screen through the auth provider. */
    method HandleLogin(remoteOk: bool)
      requires Valid()
      modifies this
      ensures Valid()
      ensures !isSubmitting
      ensures mode == old(mode) && pendingEmail == old(pendingEmail) && otpCountdown == old(otpCountdown)
      ensures errors == old(errors) && email == old(email) && otpCode == old(otpCode)
    {
      isSubmitting := true;
      isSubmitting := false;
    }

    /** `handleForgotPassword`: a sent reset email returns to the login form. */
    method HandleForgotPassword(remoteOk: bool)
      requires Valid()
      modifies this
      ensures Valid()
      ensures !isSubmitting
      ensures mode == (if remoteOk then Login else old(mode))
      ensures pendingEmail == old(pendingEmail) && otpCountdown == old(otpCountdown)
      ensures errors == old(errors) && email == old(email) && otpCode == old(otpCode)
    {
      isSubmitting := true;
      if remoteOk {
        mode := Login;
      }
      isSubmitting := false;
    }

    /** `handleVerifyOTP` (also wired directly to the verify button): nothing
        happens without a non-empty pending email; a verified code returns to login. */
    method HandleVerifyOtp(remoteOk: bool) returns (requested: bool)
      requires Valid()
      modifies this
      ensures Valid()
      ensures requested <==> old(HasPending())
      ensures !requested ==> isSubmitting == old(isSubmitting)
      ensures requested ==> !isSubmitting
      ensures mode == (if requested && remoteOk then Login else old(mode))
      ensures pendingEmail == old(pendingEmail) && otpCountdown == old(otpCountdown)
      ensures errors == old(errors) && email == old(email) && otpCode == old(otpCode)
    {
      if !HasPending() {
        return false;
      }
      requested := true;
      isSubmitting := true;
      if remoteOk {
        mode := Login;
      }
      isSubmitting := false;
    }

    /** `handleResendOTP`: refused while the countdown runs or without a non-empty pending
        email; a resent code restarts the countdown. */
    method HandleResendOtp(remoteOk: bool) returns (requested: bool)
      requires Valid()
      modifies this
      ensures Valid()
      ensures requested <==> old(HasPending()) && old(otpCountdown) == 0
      ensures otpCountdown == (if requested && remoteOk then OtpResendSeconds else old(otpCountdown))
      ensures mode == old(mode) && pendingEmail == old(pendingEmail) && isSubmitting == old(isSubmitting)
      ensures errors == old(errors) && email == old(email) && otpCode == old(otpCode)
    {
      if !HasPending() || otpCountdown > 0 {
        return false;
      }
      requested := true;
      if remoteOk {
        otpCountdown := OtpResendSeconds;
      }
    }

    /** `handleSubmit`: validate, then run the handler of the current mode. */
    method HandleSubmit(emailAccepted: bool, remoteOk: bool) returns (valid: bool)
      requires Valid()
      modifies this
      ensures Valid()
      ensures errors == FormErrors(old(mode), emailAccepted, old(Inputs()))
      ensures valid <==> errors == map[]
      ensures valid <==> FormAccepted(old(mode), emailAccepted, old(Inputs()))
      ensures !valid ==> (mode == old(mode) && pendingEmail == old(pendingEmail)
        && otpCountdown == old(otpCountdown) && isSubmitting == old(isSubmitting))
      ensures valid && old(mode) == Signup ==>
        if remoteOk then mode == OtpVerify && pendingEmail == Some(old(email)) && otpCountdown == OtpResendSeconds
        else mode == Signup && pendingEmail == old(pendingEmail) && otpCountdown == old(otpCountdown)
      ensures valid && old(mode) == Login ==> mode == Login && pendingEmail == old(pendingEmail)
      ensures valid && old(mode) == Forgot ==> mode == (if remoteOk then Login else Forgot)
      ensures valid && old(mode) == OtpVerify ==> mode == (if remoteOk && old(HasPending()) then Login else OtpVerify)
    {
      valid := ValidateForm(emailAccepted);
      NoErrorsIffAccepted(mode, emailAccepted, Inputs());
      if !valid {
        return;
      }
      if mode == Signup {
        HandleSignup(remoteOk);
      } else if mode == Login {
        HandleLogin(remoteOk);
      } else if mode == Forgot {
        HandleForgotPassword(remoteOk);
      } else {
        var _ := HandleVerifyOtp(remoteOk);
      }
    }

    /** One second of the countdown effect: it counts down and stops at zero. */
    method Tick()
      requires Valid()
      modifies this
      ensures Valid()
      ensures otpCountdown == if old(otpCountdown) > 0 then old(otpCountdown) - 1 else 0
      ensures mode == old(mode) && pendingEmail == old(pendingEmail) && errors == old(errors)
    {
      if otpCountdown > 0 {
        otpCountdown := otpCountdown - 1;
      }
    }

    /** The toggle below the form. */
    method ToggleMode()
      requires Valid()
      modifies this
      ensures Valid()
      ensures mode == ToggledMode(old(mode))
      ensures pendingEmail == old(pendingEmail) && otpCountdown == old(otpCountdown)
    {
      mode := ToggledMode(mode);
    }

    /** The "Forgot Password?" link, shown on the login form. */
    method GoToForgot()
      requires Valid() && mode == Login
      modifies this
      ensures Valid()
      ensures mode == Forgot
      ensures pendingEmail == old(pendingEmail) && otpCountdown == old(otpCountdown)
    {
      mode := Forgot;
    }

    /** "Back" on the OTP screen returns to sign-up, keeping the pending email. */
    method BackFromOtp()
      requires Valid()
      modifies this
      ensures Valid()
      ensures mode == Signup
      ensures pendingEmail == old(pendingEmail) && otpCountdown == old(otpCountdown)
    {
      mode := Signup;
    }
  }

  /** The verify button is enabled only for a six-character code while idle. */
  function VerifyButtonEnabled(isSubmitting: bool, otpCode: string): (enabled: bool)
    ensures enabled ==> |otpCode| == 6
  {
    !isSubmitting && |otpCode| == 6
  }

  /** Filtering a sequence that already satisfies the test keeps all of it. */
  lemma {:induction false} FilterKeepsAll(s: string)
    requires AllDigits(s)
    ensures Lists.Filter(s, IsDigit) == s
  {
    if s != [] {
      assert AllDigits(s[1..]) by {
        forall i | 0 <= i < |s[1..]| ensures IsDigit(s[1..][i]) { assert s[1..][i] == s[i + 1]; }
      }
      FilterKeepsAll(s[1..]);
      assert s == [s[0]] + s[1..];
    }
  }
}
