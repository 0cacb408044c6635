/** The profile-edit screen: two text fields synchronised from the profile,
    a validator that records one message per failing field, and the save
    handler that shapes the upsert row and branches on the backend's answer. */
module PersonalInfo {
  import opened Text
  import opened Domain
  import opened Validation

  datatype InfoField = FullNameField | PhoneField

  const NameTooShortMessage := "Name must be at least 2 characters"
  /** The schema library's own message for a `max(100)` failure. */
  const NameTooLongMessage := "String must contain at most 100 character(s)"
  const PhoneMessage := "Enter a valid SA phone number (e.g. +27821234567)"

  /** The message the name schema reports first for a trimmed name, if any. */
  function NameError(trimmed: string): (m: Option<string>)
    ensures m.None? <==> IsNameLength(trimmed)
    ensures m.Some? ==> (m.value == NameTooShortMessage <==> |trimmed| < 2)
  {
    if |trimmed| < 2 then Some(NameTooShortMessage)
    else if |trimmed| > 100 then Some(NameTooLongMessage)
    else None
  }

  /** A phone is checked only when something is left after trimming. */
  predicate PhoneAccepted(phone: string)
  {
    var t := Trim(phone);
    t == [] || IsSAPhone(t)
  }

  /** The error record built from the two schema verdicts. */
  function ErrorsFrom(nameError: Option<string>, phoneOk: bool): map<InfoField, string>
  {
    var e0 := map[];
    var e1 := if nameError.Some? then e0[FullNameField := nameError.value] else e0;
    if phoneOk then e1 else e1[PhoneField := PhoneMessage]
  }

  /** The error record `validate` leaves behind for the two inputs. */
  function InfoErrors(fullName: string, phone: string): map<InfoField, string>
  {
    ErrorsFrom(NameError(Trim(fullName)), PhoneAccepted(phone))
  }

  /** Which field is in the record, and with which message. */
  lemma InfoErrorsEntries(fullName: string, phone: string)
    ensures FullNameField in InfoErrors(fullName, phone) <==> !IsNameLength(Trim(fullName))
    ensures FullNameField in InfoErrors(fullName, phone) ==>
      InfoErrors(fullName, phone)[FullNameField] == NameError(Trim(fullName)).value
    ensures PhoneField in InfoErrors(fullName, phone) <==> Trim(phone) != [] && !IsSAPhone(Trim(phone))
    ensures PhoneField in InfoErrors(fullName, phone) ==> InfoErrors(fullName, phone)[PhoneField] == PhoneMessage
    ensures InfoErrors(fullName, phone) == map[] <==> IsNameLength(Trim(fullName)) && PhoneAccepted(phone)
  {
    var e := InfoErrors(fullName, phone);
    if IsNameLength(Trim(fullName)) && PhoneAccepted(phone) {
      assert e == map[];
    } else if !IsNameLength(Trim(fullName)) {
      assert FullNameField in e;
    } else {
      assert PhoneField in e;
    }
  }

  /** Only white space in the phone box is never an error. */
  lemma BlankPhoneAccepted(fullName: string, phone: string)
    requires AllSpace(phone)
    ensures PhoneField !in InfoErrors(fullName, phone)
  {
  }

  /** The backend's error object. */
  datatype DbError = DbError(message: string, code: string)

  /** The upsert's answer: the returned rows (if any) and the error (if any). */
  datatype UpsertReply = UpsertReply(data: Option<seq<Profile>>, error: Option<DbError>)

  /** The row sent to the `profiles` upsert (conflicting on `user_id`). */
  datatype ProfileUpsert = ProfileUpsert(userId: UserId, fullName: string, phone: Option<string>, email: string)

  function SavePayload(user: User, fullName: string, phone: string): (row: ProfileUpsert)
  {
    var p := Trim(phone);
    ProfileUpsert(user.id, Trim(fullName), if p == [] then None else Some(p), user.email.GetOr(""))
  }

  /** The row sent: the user's id and e-mail, the trimmed name, and the
      trimmed phone, which is absent exactly when the input is blank. */
  lemma SavePayloadFields(user: User, fullName: string, phone: string)
    ensures var row := SavePayload(user, fullName, phone);
      && row.userId == user.id && row.email == user.email.GetOr("")
      && row.fullName == Trim(fullName)
      && (row.phone.None? <==> AllSpace(phone))
      && (row.phone.Some? ==> row.phone.value == Trim(phone) && row.phone.value != [])
  {
  }

  /** A payload built from inputs that passed validation holds a name of
      allowed length and either no phone or a South African number. */
  lemma ValidatedPayload(user: User, fullName: string, phone: string)
    requires InfoErrors(fullName, phone) == map[]
    ensures IsNameLength(SavePayload(user, fullName, phone).fullName)
    ensures SavePayload(user, fullName, phone).phone.None?
      || IsSAPhone(SavePayload(user, fullName, phone).phone.value)
    ensures SavePayload(user, fullName, phone).userId == user.id
  {
    InfoErrorsEntries(fullName, phone);
  }

  /** A unique-constraint violation, recognised by message or by code. */
  predicate IsDuplicate(e: DbError)
  {
    Contains(e.message, "duplicate") || e.code == "23505"
  }

  /** How a save ends. */
  datatype SaveResult =
    | NotAttempted    // no user, or validation failed
    | PhoneTaken      // the "already linked" message
    | SaveFailed      // any other error: the generic "could not update" message
    | NothingSaved    // no error but no row came back
    | Saved           // the user data is refreshed, then "Profile updated"

  function SaveResultOf(reply: UpsertReply): (r: SaveResult)
    ensures r != NotAttempted
    ensures r == Saved <==> reply.error.None? && reply.data.Some? && reply.data.value != []
    ensures r == PhoneTaken <==> reply.error.Some? && IsDuplicate(reply.error.value)
  {
    match reply.error
    case Some(e) => if IsDuplicate(e) then PhoneTaken else SaveFailed
    case None => if reply.data.None? || reply.data.value == [] then NothingSaved else Saved
  }

  class InfoForm {
    var fullName: string
    var phone: string
    var isSaving: bool
    var errors: map<InfoField, string>

    constructor()
      ensures fullName == "" && phone == "" && !isSaving && errors == map[]
    {
      fullName, phone := "", "";
      isSaving := false;
      errors := map[];
    }

    /** The effect on `profile`: a present profile resets both fields (a
        missing phone becomes ""); an absent one leaves them as typed. */
    method SyncFromProfile(profile: Option<Profile>)
      modifies this
      ensures profile.Some? ==> fullName == profile.value.fullName && phone == profile.value.phone.GetOr("")
      ensures profile.None? ==> fullName == old(fullName) && phone == old(phone)
      ensures isSaving == old(isSaving) && errors == old(errors)
    {
      if profile.Some? {
        fullName := profile.value.fullName;
        phone := profile.value.phone.GetOr("");
      }
    }

    /** `validate`: rebuild the error record, report whether it is empty. */
    method Validate() returns (ok: bool)
      modifies this
      ensures errors == InfoErrors(fullName, phone)
      ensures ok <==> errors == map[]
      ensures fullName == old(fullName) && phone == old(phone) && isSaving == old(isSaving)
    {
      var nameError := NameError(Trim(fullName));
      var p := Trim(phone);
      var phoneOk := p == [] || IsSAPhone(p);
      ok := CollectInfoErrors(nameError, phoneOk);
    }

    /** The two checks of `validate`, each adding its field's message. */
    method CollectInfoErrors(nameError: Option<string>, phoneOk: bool) returns (ok: bool)
      modifies this
      ensures errors == ErrorsFrom(nameError, phoneOk)
      ensures ok <==> errors == map[]
      ensures fullName == old(fullName) && phone == old(phone) && isSaving == old(isSaving)
    {
      var newErrors: map<InfoField, string> := map[];
      if nameError.Some? {
        newErrors := newErrors[FullNameField := nameError.value];
      }
      if !phoneOk {
        newErrors := newErrors[PhoneField := PhoneMessage];
      }
      errors := newErrors;
      ok := |newErrors| == 0;
      assert ok <==> newErrors == map[] by {
        if newErrors != map[] {
          var k :| k in newErrors;
          assert k in newErrors.Keys;
        }
      }
    }

    /** `handleSave`. The upsert's answer is a parameter; `sent` is the row
        handed to the upsert, absent when the handler returned early. A
        `Saved` result is the caller's cue to refresh the user data. */
    method HandleSave(user: Option<User>, reply: UpsertReply) returns (sent: Option<ProfileUpsert>, result: SaveResult)
      modifies this
      ensures fullName == old(fullName) && phone == old(phone)
      ensures user.None? ==> result == NotAttempted && sent.None? && errors == old(errors) && isSaving == old(isSaving)
      ensures user.Some? ==> errors == InfoErrors(fullName, phone)
      ensures user.Some? && errors != map[] ==> result == NotAttempted && sent.None? && isSaving == old(isSaving)
      ensures user.Some? && errors == map[] ==>
        sent == Some(SavePayload(user.value, fullName, phone)) && result == SaveResultOf(reply) && !isSaving
    {
      if user.None? {
        return None, NotAttempted;
      }
      var ok := Validate();
      if !ok {
        return None, NotAttempted;
      }
      sent, result := Upsert(user.value, reply);
    }

    /** The saving phase of `handleSave`: the trimmed row goes out, the reply
        is classified, and `isSaving` is off again afterwards. */
    method Upsert(user: User, reply: UpsertReply) returns (sent: Option<ProfileUpsert>, result: SaveResult)
      modifies this
      ensures sent == Some(SavePayload(user, fullName, phone)) && result == SaveResultOf(reply) && !isSaving
      ensures fullName == old(fullName) && phone == old(phone) && errors == old(errors)
    {
      var row := SavePayload(user, fullName, phone);
      isSaving := true;
      sent, result := Some(row), SaveResultOf(reply);
      isSaving := false;
    }
  }
}
