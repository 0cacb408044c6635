/** The rewards screen: the balance shown, the active and used redemption
    lists it derives, and the wallet tab's cards, one per redemption in the
    history, each drawn with a title, a status label and (while active) its
    code. */
module RewardsPage {
  import opened Domain
  import Lists

  /** `loyaltyAccount?.current_points || 0`. */
  function CurrentPoints(account: Option<LoyaltyAccount>): (p: int)
    ensures account.None? ==> p == 0
    ensures account.Some? ==> p == account.value.currentPoints
  {
    if account.Some? then account.value.currentPoints else 0
  }

  /** A redemption row with the titles of its joined reward and deal, if any. */
  datatype Redemption = Redemption(
    id: string,
    redemptionCode: string,
    status: string,
    expiresAt: string,
    createdAt: string,
    usedAt: Option<string>,
    rewardTitle: Option<string>,
    dealTitle: Option<string>)

  predicate IsActive(r: Redemption) { r.status == "active" }
  predicate IsUsed(r: Redemption) { r.status == "used" }

  function ActiveRedemptions(rs: seq<Redemption>): (a: seq<Redemption>)
    ensures Lists.IsSubsequence(a, rs)
    ensures forall r :: r in a <==> r in rs && IsActive(r)
    ensures forall r :: multiset(a)[r] == if IsActive(r) then multiset(rs)[r] else 0
  {
    Lists.FilterMultiset(rs, IsActive);
    Lists.Filter(rs, IsActive)
  }

  function UsedRedemptions(rs: seq<Redemption>): (u: seq<Redemption>)
    ensures Lists.IsSubsequence(u, rs)
    ensures forall r :: r in u <==> r in rs && IsUsed(r)
    ensures forall r :: multiset(u)[r] == if IsUsed(r) then multiset(rs)[r] else 0
  {
    Lists.FilterMultiset(rs, IsUsed);
    Lists.Filter(rs, IsUsed)
  }

  /** The active and used lists share no redemption, and together they hold
      every redemption whose status is one of the two. */
  lemma {:induction false} ActiveUsedPartition(rs: seq<Redemption>)
    ensures forall r :: !(r in ActiveRedemptions(rs) && r in UsedRedemptions(rs))
    ensures |ActiveRedemptions(rs)| + |UsedRedemptions(rs)| == |Lists.Filter(rs, (r: Redemption) => IsActive(r) || IsUsed(r))|
  {
    if rs != [] {
      ActiveUsedPartition(rs[1..]);
    }
  }

  /** `r.rewards?.title || r.deals?.title || "Reward"`. */
  function DisplayTitle(r: Redemption): (t: string)
    ensures t != ""
    ensures r.rewardTitle.Some? && r.rewardTitle.value != "" ==> t == r.rewardTitle.value
    ensures r.rewardTitle.GetOr("") == "" && r.dealTitle.Some? && r.dealTitle.value != "" ==> t == r.dealTitle.value
    ensures r.rewardTitle.GetOr("") == "" && r.dealTitle.GetOr("") == "" ==> t == "Reward"
  {
    if r.rewardTitle.Some? && r.rewardTitle.value != "" then r.rewardTitle.value
    else if r.dealTitle.Some? && r.dealTitle.value != "" then r.dealTitle.value
    else "Reward"
  }

  /** What one history card shows; the code and expiry appear only while active. */
  datatype HistoryCard = HistoryCard(title: string, statusLabel: string, code: Option<string>, expires: Option<string>)

  function Card(r: Redemption): (c: HistoryCard)
    ensures c.title == DisplayTitle(r)
    ensures c.statusLabel == "Active" <==> IsActive(r)
    ensures c.statusLabel == "Active" || c.statusLabel == "Used"
    ensures c.code.Some? <==> IsActive(r)
    ensures c.expires.Some? <==> IsActive(r)
    ensures c.code.Some? ==> c.code.value == r.redemptionCode && c.expires.value == r.expiresAt
  {
    var active := IsActive(r);
    HistoryCard(DisplayTitle(r), if active then "Active" else "Used",
                if active then Some(r.redemptionCode) else None,
                if active then Some(r.expiresAt) else None)
  }

  /** Any status other than "active" (an expired voucher, say) is labelled "Used". */
  lemma OtherStatusLabelledUsed(r: Redemption)
    requires r.status != "active"
    ensures Card(r).statusLabel == "Used" && Card(r).code.None?
  {
  }

  /** The redemption fetch: nothing without an account id. The helper
      answers a list (an absent one already turned into `[]`), which replaces
      the history, or throws (`None`), which leaves it. */
  function RedemptionsAfterFetch(rs: seq<Redemption>, accountId: Option<string>, data: Option<seq<Redemption>>): (r: seq<Redemption>)
    ensures accountId.None? || accountId.value == "" || data.None? ==> r == rs
    ensures accountId.Some? && accountId.value != "" && data.Some? ==> r == data.value
  {
    if accountId.None? || accountId.value == "" || data.None? then rs else data.value
  }
}
