/** Rows the client receives from the backend, and the enumerations of the
    database schema (`loyalty_tier`, `app_role`). */
module Domain {

  datatype Option<+T> = None | Some(value: T)
  {
    function GetOr(default: T): T
    {
      match this
      case Some(v) => v
      case None => default
    }
  }

  type UserId = string

  /** The `loyalty_tier` enumeration, in increasing order. */
  datatype Tier = Silver | Gold | Platinum

  /** The `app_role` enumeration. */
  datatype AppRole = Admin | Staff | Customer

  function TierRank(t: Tier): nat
  {
    match t
    case Silver => 0
    case Gold => 1
    case Platinum => 2
  }

  /** The authenticated principal as the auth service reports it. */
  datatype User = User(id: UserId, email: Option<string>)

  /** A session always carries its user. */
  datatype Session = Session(accessToken: string, user: User)

  datatype Profile = Profile(
    id: string,
    userId: UserId,
    fullName: string,
    email: string,
    phone: Option<string>,
    phoneVerified: bool,
    birthday: Option<string>,
    avatarUrl: Option<string>,
    idNumberHash: Option<string>,
    createdAt: string)

  datatype LoyaltyAccount = LoyaltyAccount(
    id: string,
    userId: UserId,
    memberId: string,
    barcodeValue: string,
    currentPoints: int,
    lifetimePoints: int,
    currentTier: Tier,
    tierMultiplier: real,
    maxDiscountUnlocked: real,
    isActive: bool)

  /** One entry of the client's tier-threshold table. */
  datatype TierStep = TierStep(next: Tier, points: nat)

  /** `tierThresholds[tier]`: the next tier and the lifetime points that reach it;
      the top tier has no entry. */
  function NextTier(t: Tier): (r: Option<TierStep>)
    ensures r.None? <==> t == Platinum
    ensures r.Some? ==> TierRank(r.value.next) == TierRank(t) + 1
  {
    match t
    case Silver => Some(TierStep(Gold, 25000))
    case Gold => Some(TierStep(Platinum, 50000))
    case Platinum => None
  }

  /** Climbing the table, the thresholds grow with the tier. */
  lemma ThresholdsIncrease(a: Tier, b: Tier)
    requires NextTier(a).Some? && NextTier(b).Some?
    requires TierRank(a) < TierRank(b)
    ensures NextTier(a).value.points < NextTier(b).value.points
  {
  }

  /** `loyaltyAccount?.current_tier || "silver"`. */
  function TierOrDefault(account: Option<LoyaltyAccount>): (t: Tier)
    ensures account.None? ==> t == Silver
    ensures account.Some? ==> t == account.value.currentTier
  {
    match account
    case Some(a) => a.currentTier
    case None => Silver
  }
}
