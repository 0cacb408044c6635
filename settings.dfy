/** The settings screen: seven notification switches, loaded from the
    preference row and changed one key at a time, and the two-step account
    deletion dialog gated by typing DELETE. */
module Settings {
  import opened Text
  import opened Domain
  import AuthContext

  /** The seven switches, in the order the screen lists them. */
  datatype PrefKey = Push | Email | Sms | WhatsApp | Promotions | PointsAlerts | TierAlerts

  datatype Prefs = Prefs(
    push: bool,
    email: bool,
    sms: bool,
    whatsapp: bool,
    promotions: bool,
    points: bool,
    tier: bool)
  {
    function Get(k: PrefKey): bool
    {
      match k
      case Push => push
      case Email => email
      case Sms => sms
      case WhatsApp => whatsapp
      case Promotions => promotions
      case PointsAlerts => points
      case TierAlerts => tier
    }

    /** `{ ...prev, [key]: value }`. */
    function Set(k: PrefKey, v: bool): (r: Prefs)
      ensures r.Get(k) == v
      ensures forall j :: j != k ==> r.Get(j) == Get(j)
    {
      match k
      case Push => this.(push := v)
      case Email => this.(email := v)
      case Sms => this.(sms := v)
      case WhatsApp => this.(whatsapp := v)
      case Promotions => this.(promotions := v)
      case PointsAlerts => this.(points := v)
      case TierAlerts => this.(tier := v)
    }
  }

  const DefaultPrefs := Prefs(true, true, true, false, true, true, true)

  /** Every switch starts on except WhatsApp. */
  lemma DefaultsOnExceptWhatsApp(k: PrefKey)
    ensures DefaultPrefs.Get(k) <==> k != WhatsApp
  {
  }

  /** Two preferences agreeing on every key are the same. */
  lemma PrefsExtensional(p: Prefs, q: Prefs)
    requires forall k :: p.Get(k) == q.Get(k)
    ensures p == q
  {
    assert p.Get(Push) == q.Get(Push) && p.Get(Email) == q.Get(Email) && p.Get(Sms) == q.Get(Sms);
    assert p.Get(WhatsApp) == q.Get(WhatsApp) && p.Get(Promotions) == q.Get(Promotions);
    assert p.Get(PointsAlerts) == q.Get(PointsAlerts) && p.Get(TierAlerts) == q.Get(TierAlerts);
  }

  /** Setting a switch back to its old value undoes the change. */
  lemma SetBack(p: Prefs, k: PrefKey, v: bool)
    ensures p.Set(k, v).Set(k, p.Get(k)) == p
  {
    match k
    case Push =>
    case Email =>
    case Sms =>
    case WhatsApp =>
    case Promotions =>
    case PointsAlerts =>
    case TierAlerts =>
  }

  /** The confirmation word. */
  const DeleteWord := "DELETE"

  datatype DeleteResult =
    | NotAttempted   // the word is not typed, or nobody is signed in
    | DeleteFailed   // no session, or the delete function reported an error
    | Deleted        // signed out; the screen moves to the sign-in page

  class SettingsScreen {
    var prefs: Prefs
    var isLoading: bool
    var isSaving: bool
    var showDeleteDialog: bool
    var showConfirmStep: bool
    var confirmText: string
    var isDeleting: bool

    constructor()
      ensures prefs == DefaultPrefs && isLoading && !isSaving
      ensures !showDeleteDialog && !showConfirmStep && confirmText == "" && !isDeleting
    {
      prefs := DefaultPrefs;
      isLoading, isSaving := true, false;
      showDeleteDialog, showConfirmStep := false, false;
      confirmText := "";
      isDeleting := false;
    }

    /** The preference query completing: a returned row replaces all seven
        switches, no row keeps what is shown; without a user nothing was
        asked and the loading state stays on. */
    method PrefsLoaded(user: Option<User>, row: Option<Prefs>)
      modifies this
      ensures user.None? ==> prefs == old(prefs) && isLoading == old(isLoading)
      ensures user.Some? ==> prefs == row.GetOr(old(prefs)) && !isLoading
      ensures isSaving == old(isSaving) && showDeleteDialog == old(showDeleteDialog)
      ensures showConfirmStep == old(showConfirmStep) && confirmText == old(confirmText) && isDeleting == old(isDeleting)
    {
      if user.None? {
        return;
      }
      if row.Some? {
        prefs := row.value;
      }
      isLoading := false;
    }

    /** `updatePref(key, value)`: the switch flips on screen first, whether or
        not anyone is signed in; the upsert of that one key (returned as
        `sent`) follows only for a user. */
    method UpdatePref(user: Option<User>, key: PrefKey, value: bool) returns (sent: Option<(UserId, PrefKey, bool)>)
      modifies this
      ensures prefs == old(prefs).Set(key, value)
      ensures user.None? ==> sent.None? && isSaving == old(isSaving)
      ensures user.Some? ==> sent == Some((user.value.id, key, value)) && !isSaving
      ensures isLoading == old(isLoading) && showDeleteDialog == old(showDeleteDialog)
      ensures showConfirmStep == old(showConfirmStep) && confirmText == old(confirmText) && isDeleting == old(isDeleting)
    {
      prefs := prefs.Set(key, value);
      if user.None? {
        return None;
      }
      isSaving := true;
      sent := Some((user.value.id, key, value));
      isSaving := false;
    }

    /** "Delete Account": the dialog opens on its first step with an empty word. */
    method OpenDeleteDialog()
      modifies this
      ensures showDeleteDialog && !showConfirmStep && confirmText == ""
      ensures prefs == old(prefs) && isLoading == old(isLoading) && isSaving == old(isSaving) && isDeleting == old(isDeleting)
    {
      showDeleteDialog, showConfirmStep, confirmText := true, false, "";
    }

    /** "I understand, continue". */
    method ContinueToConfirm()
      modifies this
      ensures showConfirmStep
      ensures showDeleteDialog == old(showDeleteDialog) && confirmText == old(confirmText)
      ensures prefs == old(prefs) && isLoading == old(isLoading) && isSaving == old(isSaving) && isDeleting == old(isDeleting)
    {
      showConfirmStep := true;
    }

    /** "Cancel" on the first step. */
    method CancelDialog()
      modifies this
      ensures !showDeleteDialog
      ensures showConfirmStep == old(showConfirmStep) && confirmText == old(confirmText)
      ensures prefs == old(prefs) && isLoading == old(isLoading) && isSaving == old(isSaving) && isDeleting == old(isDeleting)
    {
      showDeleteDialog := false;
    }

    /** "Go Back" on the confirmation step: back to the first step, word cleared. */
    method GoBack()
      modifies this
      ensures !showConfirmStep && confirmText == ""
      ensures showDeleteDialog == old(showDeleteDialog)
      ensures prefs == old(prefs) && isLoading == old(isLoading) && isSaving == old(isSaving) && isDeleting == old(isDeleting)
    {
      showConfirmStep, confirmText := false, "";
    }

    /** Typing in the confirmation box: the text is kept upper-cased. */
    method EditConfirmText(input: string)
      modifies this
      ensures confirmText == Upper(input)
      ensures showDeleteDialog == old(showDeleteDialog) && showConfirmStep == old(showConfirmStep)
      ensures prefs == old(prefs) && isLoading == old(isLoading) && isSaving == old(isSaving) && isDeleting == old(isDeleting)
    {
      confirmText := Upper(input);
    }

    /** The final button is enabled only for the exact word while idle. */
    predicate DeleteEnabled()
      reads this
    {
      confirmText == DeleteWord && !isDeleting
    }

    /** `handleDeleteAccount`. The stored session and whether the delete
        function reported an error are parameters; on success the auth
        provider is signed out. `isDeleting` is off again afterwards. The
        user is the provider's. */
    method HandleDeleteAccount(session: Option<Session>, invokeFailed: bool, auth: AuthContext.AuthProvider)
      returns (result: DeleteResult)
      requires auth.Valid()
      modifies this, auth
      ensures auth.Valid()
      ensures old(confirmText) != DeleteWord || old(auth.user).None? ==>
        result == NotAttempted && isDeleting == old(isDeleting) && auth.Snapshot() == old(auth.Snapshot())
      ensures old(confirmText) == DeleteWord && old(auth.user).Some? ==> !isDeleting && result != NotAttempted
      ensures result == Deleted <==> old(confirmText) == DeleteWord && old(auth.user).Some? && session.Some? && !invokeFailed
      ensures result == Deleted ==> auth.user.None? && auth.session.None? && auth.Snapshot() == AuthContext.NoUserData
      ensures result != Deleted ==> auth.user == old(auth.user) && auth.session == old(auth.session)
      ensures confirmText == old(confirmText) && prefs == old(prefs)
      ensures showDeleteDialog == old(showDeleteDialog) && showConfirmStep == old(showConfirmStep)
    {
      if confirmText != DeleteWord {
        return NotAttempted;
      }
      if auth.user.None? {
        return NotAttempted;
      }
      isDeleting := true;
      if session.None? || invokeFailed {
        result := DeleteFailed;
      } else {
        auth.SignOut();
        result := Deleted;
      }
      isDeleting := false;
    }
  }

  /** A click on the final button, which fires only while it is enabled: the
      word check always passes, so with a signed-in user the deletion is
      attempted, and it succeeds iff there is a session and the call succeeds. */
  method ClickDelete(screen: SettingsScreen, session: Option<Session>, invokeFailed: bool,
                     auth: AuthContext.AuthProvider)
    returns (result: DeleteResult)
    requires auth.Valid() && screen.DeleteEnabled()
    modifies screen, auth
    ensures old(auth.user).None? <==> result == NotAttempted
    ensures result == Deleted <==> old(auth.user).Some? && session.Some? && !invokeFailed
    ensures screen.DeleteEnabled()
  {
    result := screen.HandleDeleteAccount(session, invokeFailed, auth);
  }

  /** Typing the word in lower case enables the final button. */
  lemma LowercaseWordAccepted()
    ensures Upper("delete") == DeleteWord
  {
    var u := Upper("delete");
    assert u[0] == 'D' && u[1] == 'E' && u[2] == 'L' && u[3] == 'E' && u[4] == 'T' && u[5] == 'E';
  }

  /** Only a six-letter input can enable deletion: upper-casing keeps the length. */
  lemma ConfirmNeedsSixLetters(input: string)
    requires Upper(input) == DeleteWord
    ensures |input| == 6
  {
  }
}
