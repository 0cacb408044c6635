/** The session and user-data snapshot that `AuthProvider` keeps for every
    screen: seven state fields, changed by auth events, by the initial session
    check, by the four-way user-data fetch and by sign-out. */
module AuthContext {
  import opened Domain

  /** What a single-row query returns: the row (if any) and the error code (if any). */
  datatype QueryResult<T> = QueryResult(data: Option<T>, error: Option<string>)

  /** The result of an awaited helper: a value, or a thrown error. */
  datatype Outcome<T> = Ok(value: T) | Threw

  /** PostgREST's "no rows for `.single()`" error code. */
  const NoRowsCode := "PGRST116"

  /** The backend tables the fetch reads, as the answers they give for a user id. */
  datatype Backend = Backend(
    profiles: UserId -> QueryResult<Profile>,
    loyaltyAccounts: UserId -> QueryResult<LoyaltyAccount>,
    staffRoles: (UserId, AppRole) -> QueryResult<AppRole>)

  /** `getUserProfile`: any error (including "no row") is thrown. */
  function ProfileOutcome(q: QueryResult<Profile>): (r: Outcome<Option<Profile>>)
    ensures r.Threw? <==> q.error.Some?
    ensures r.Ok? ==> r.value == q.data
  {
    if q.error.Some? then Threw else Ok(q.data)
  }

  /** `getLoyaltyAccount`: a missing row is tolerated, any other error is thrown. */
  function LoyaltyOutcome(q: QueryResult<LoyaltyAccount>): (r: Outcome<Option<LoyaltyAccount>>)
    ensures r.Threw? <==> q.error.Some? && q.error.value != NoRowsCode
    ensures r.Ok? ==> r.value == q.data
  {
    if q.error.Some? && q.error.value != NoRowsCode then Threw else Ok(q.data)
  }

  /** `hasRole`: true iff a matching staff row exists; any error is thrown. */
  function RoleOutcome(q: QueryResult<AppRole>): (r: Outcome<bool>)
    ensures r.Threw? <==> q.error.Some?
    ensures r.Ok? ==> (r.value <==> q.data.Some?)
  {
    if q.error.Some? then Threw else Ok(q.data.Some?)
  }

  /** The four user-dependent fields, set together. */
  datatype UserData = UserData(
    profile: Option<Profile>,
    loyaltyAccount: Option<LoyaltyAccount>,
    isAdmin: bool,
    isStaff: bool)

  const NoUserData := UserData(None, None, false, false)

  /** `Promise.all` over the four helpers for one user id: all four values, or
      a rejection as soon as any of them throws. */
  function FetchAll(db: Backend, userId: UserId): (r: Outcome<UserData>)
    ensures r.Threw? <==>
      db.profiles(userId).error.Some?
      || (db.loyaltyAccounts(userId).error.Some? && db.loyaltyAccounts(userId).error.value != NoRowsCode)
      || db.staffRoles(userId, Admin).error.Some?
      || db.staffRoles(userId, Staff).error.Some?
    ensures r.Ok? ==>
      r.value.profile == db.profiles(userId).data
      && r.value.loyaltyAccount == db.loyaltyAccounts(userId).data
      && (r.value.isAdmin <==> db.staffRoles(userId, Admin).data.Some?)
      && (r.value.isStaff <==> db.staffRoles(userId, Staff).data.Some?)
  {
    var p := ProfileOutcome(db.profiles(userId));
    var l := LoyaltyOutcome(db.loyaltyAccounts(userId));
    var a := RoleOutcome(db.staffRoles(userId, Admin));
    var s := RoleOutcome(db.staffRoles(userId, Staff));
    if p.Threw? || l.Threw? || a.Threw? || s.Threw? then Threw
    else Ok(UserData(p.value, l.value, a.value, s.value))
  }

  /** `newSession?.user ?? null`. */
  function UserOf(session: Option<Session>): (u: Option<User>)
    ensures u.Some? <==> session.Some?
    ensures u.Some? ==> u.value == session.value.user
  {
    match session
    case Some(s) => Some(s.user)
    case None => None
  }

  class AuthProvider {
    var user: Option<User>
    var session: Option<Session>
    var profile: Option<Profile>
    var loyaltyAccount: Option<LoyaltyAccount>
    var isLoading: bool
    var isAdmin: bool
    var isStaff: bool

    /** `user` is always the user of `session`: every handler sets them together. */
    ghost predicate Valid()
      reads this
    {
      user == UserOf(session)
    }

    function Snapshot(): UserData
      reads this
    {
      UserData(profile, loyaltyAccount, isAdmin, isStaff)
    }

    constructor()
      ensures Valid()
      ensures user.None? && session.None? && Snapshot() == NoUserData
      ensures isLoading
    {
      user, session := None, None;
      profile, loyaltyAccount := None, None;
      isLoading := true;
      isAdmin, isStaff := false, false;
    }

    /** `fetchUserData(userId)` completing: on success the four fields take the
        four results for `userId`; on failure the error is only logged and the
        previous values stay. Nothing checks whether `userId` is still the
        signed-in user. */
    method FetchUserData(userId: UserId, db: Backend)
      requires Valid()
      modifies this
      ensures Valid()
      ensures user == old(user) && session == old(session) && isLoading == old(isLoading)
      ensures FetchAll(db, userId).Ok? ==> Snapshot() == FetchAll(db, userId).value
      ensures FetchAll(db, userId).Threw? ==> Snapshot() == old(Snapshot())
    {
      var r := FetchAll(db, userId);
      if r.Ok? {
        profile := r.value.profile;
        loyaltyAccount := r.value.loyaltyAccount;
        isAdmin := r.value.isAdmin;
        isStaff := r.value.isStaff;
      }
    }

    /** `refreshUserData`: a fetch for the current user, or nothing when signed out. */
    method RefreshUserData(db: Backend)
      requires Valid()
      modifies this
      ensures Valid()
      ensures user == old(user) && session == old(session) && isLoading == old(isLoading)
      ensures old(user).None? ==> Snapshot() == old(Snapshot())
      ensures old(user).Some? && FetchAll(db, old(user).value.id).Ok? ==>
        Snapshot() == FetchAll(db, old(user).value.id).value
      ensures old(user).Some? && FetchAll(db, old(user).value.id).Threw? ==>
        Snapshot() == old(Snapshot())
    {
      if user.Some? {
        FetchUserData(user.value.id, db);
      }
    }

    /** The `onAuthStateChange` callback. It returns the user id whose data the
        deferred fetch will load (to be completed by `FetchUserData`), or clears
        the user data at once when the new session has no user. */
    method OnAuthStateChange(newSession: Option<Session>) returns (fetchFor: Option<UserId>)
      requires Valid()
      modifies this
      ensures Valid()
      ensures session == newSession && user == UserOf(newSession)
      ensures isLoading == old(isLoading)
      ensures newSession.Some? ==> fetchFor == Some(newSession.value.user.id) && Snapshot() == old(Snapshot())
      ensures newSession.None? ==> fetchFor.None? && Snapshot() == NoUserData
    {
      session := newSession;
      user := UserOf(newSession);
      if newSession.Some? {
        fetchFor := Some(newSession.value.user.id);
      } else {
        fetchFor := None;
        profile := None;
        loyaltyAccount := None;
        isAdmin := false;
        isStaff := false;
      }
    }

    /** The `getSession` continuation: adopt the stored session, start a fetch
        for its user (not awaited), and end the loading state. Unlike the event
        callback it clears nothing when there is no session. */
    method InitialSession(existing: Option<Session>) returns (fetchFor: Option<UserId>)
      requires Valid()
      modifies this
      ensures Valid()
      ensures session == existing && user == UserOf(existing)
      ensures !isLoading
      ensures Snapshot() == old(Snapshot())
      ensures fetchFor == (if existing.Some? then Some(existing.value.user.id) else None)
    {
      session := existing;
      user := UserOf(existing);
      fetchFor := if existing.Some? then Some(existing.value.user.id) else None;
      isLoading := false;
    }

    /** `signOut`: once the remote sign-out returns, everything is cleared. */
    method SignOut()
      requires Valid()
      modifies this
      ensures Valid()
      ensures user.None? && session.None? && Snapshot() == NoUserData
      ensures isLoading == old(isLoading)
    {
      user := None;
      session := None;
      profile := None;
      loyaltyAccount := None;
      isAdmin := false;
      isStaff := false;
    }
  }

  /** A fetch that fails leaves the snapshot as it was, whatever it held: the
      profile query alone failing (e.g. no profile row) is enough. */
  lemma ProfileErrorKeepsSnapshot(db: Backend, userId: UserId)
    requires db.profiles(userId).error.Some?
    ensures FetchAll(db, userId).Threw?
  {
  }

  /** A missing loyalty row does not fail the fetch: it yields no account. */
  lemma MissingLoyaltyRowTolerated(db: Backend, userId: UserId)
    requires db.profiles(userId).error.None?
    requires db.loyaltyAccounts(userId) == QueryResult(None, Some(NoRowsCode))
    requires db.staffRoles(userId, Admin).error.None? && db.staffRoles(userId, Staff).error.None?
    ensures FetchAll(db, userId).Ok? && FetchAll(db, userId).value.loyaltyAccount.None?
  {
  }

  /** The code keeps no request sequence: a fetch started while signed in that
      completes after sign-out repopulates the user data of a signed-out client. */
  method StaleFetchAfterSignOut(s: Session, db: Backend) returns (signedIn: bool, shown: Option<Profile>)
    requires FetchAll(db, s.user.id).Ok? && db.profiles(s.user.id).data.Some?
    ensures !signedIn && shown == db.profiles(s.user.id).data && shown.Some?
  {
    var auth := new AuthProvider();
    var pending := auth.OnAuthStateChange(Some(s));
    auth.SignOut();
    assert auth.user.None?;
    auth.FetchUserData(pending.value, db);
    signedIn := auth.user.Some?;
    shown := auth.profile;
  }
}
