/** The home screen: the ledger rows turned into display entries, the
    greeting name, and the tier shown with its next threshold. */
module IndexPage {
  import opened Text
  import opened Domain

  /** The four kinds of ledger entry the screen can draw. */
  datatype TransactionKind = Earned | Redeemed | Bonus | TierBonus

  /** The kind's own name, as the display type spells it. */
  function KindName(k: TransactionKind): string
  {
    match k
    case Earned => "earned"
    case Redeemed => "redeemed"
    case Bonus => "bonus"
    case TierBonus => "tier_bonus"
  }

  /** `mapTransactionType`: both spellings of earning and redeeming, the two
      bonus kinds, and anything else read as earning. */
  function MapTransactionType(t: string): (k: TransactionKind)
    ensures k == Redeemed <==> t == "redeem" || t == "redeemed"
    ensures k == Bonus <==> t == "bonus"
    ensures k == TierBonus <==> t == "tier_bonus"
    ensures k == Earned <==> t != "redeem" && t != "redeemed" && t != "bonus" && t != "tier_bonus"
  {
    if t == "earn" || t == "earned" then Earned
    else if t == "redeem" || t == "redeemed" then Redeemed
    else if t == "bonus" then Bonus
    else if t == "tier_bonus" then TierBonus
    else Earned
  }

  /** Every kind's own name maps back to that kind. */
  lemma KindNameRoundTrip(k: TransactionKind)
    ensures MapTransactionType(KindName(k)) == k
  {
    match k
    case Earned =>
    case Redeemed =>
    case Bonus =>
    case TierBonus =>
  }

  /** A `points_transactions` row as fetched. */
  datatype LedgerRow = LedgerRow(id: string, transactionType: string, description: string, points: int, createdAt: string)

  /** A display entry (the date text is formatted from `createdAt` and left out). */
  datatype Entry = Entry(id: string, kind: TransactionKind, description: string, points: int)

  function ToEntry(row: LedgerRow): (e: Entry)
    ensures e.id == row.id && e.description == row.description && e.points == row.points
    ensures e.kind == MapTransactionType(row.transactionType)
  {
    Entry(row.id, MapTransactionType(row.transactionType), row.description, row.points)
  }

  /** The ledger mapping keeps the rows' number and order. */
  function Ledger(rows: seq<LedgerRow>): (r: seq<Entry>)
    ensures |r| == |rows|
    ensures forall i :: 0 <= i < |rows| ==> r[i] == ToEntry(rows[i])
  {
    if rows == [] then [] else [ToEntry(rows[0])] + Ledger(rows[1..])
  }

  /** The history effect: without an account id nothing is fetched. The
      helper answers a list (an absent one already turned into `[]`), which
      replaces the entries, or throws (`None`), which leaves them. */
  function EntriesAfterFetch(entries: seq<Entry>, accountId: Option<string>, data: Option<seq<LedgerRow>>): (r: seq<Entry>)
    ensures accountId.None? || accountId.value == "" || data.None? ==> r == entries
    ensures accountId.Some? && accountId.value != "" && data.Some? ==> r == Ledger(data.value)
  {
    if accountId.None? || accountId.value == "" || data.None? then entries else Ledger(data.value)
  }

  /** `profile?.full_name?.split(" ")[0] || "Member"`. */
  function DisplayName(profile: Option<Profile>): (r: string)
    ensures r != []
    ensures ' ' !in r || r == "Member"
  {
    var first := if profile.Some? then SplitSpace(profile.value.fullName)[0] else "";
    if first == "" then "Member" else first
  }

  /** The greeting is the name's text up to its first space. */
  lemma DisplayNameIsFirstWord(p: Profile)
    requires p.fullName != [] && p.fullName[0] != ' '
    ensures StartsWith(p.fullName, DisplayName(Some(p)))
    ensures |DisplayName(Some(p))| == |p.fullName| || p.fullName[|DisplayName(Some(p))|] == ' '
  {
    var s := p.fullName;
    assert SplitSpace(s)[0] == [s[0]] + SplitSpace(s[1..])[0];
    FirstPiece(s);
  }

  /** A missing profile, or a name starting with a space, is greeted as "Member". */
  lemma DisplayNameFallback(profile: Option<Profile>)
    requires profile.None? || profile.value.fullName == [] || profile.value.fullName[0] == ' '
    ensures DisplayName(profile) == "Member"
  {
  }

  /** The tier shown and the next step of the table for it. */
  function TierInfo(account: Option<LoyaltyAccount>): (r: (Tier, Option<TierStep>))
    ensures account.None? ==> r.0 == Silver && r.1 == Some(TierStep(Gold, 25000))
    ensures account.Some? ==> r.0 == account.value.currentTier
    ensures r.1 == NextTier(r.0)
    ensures r.1.None? <==> r.0 == Platinum
  {
    var t := TierOrDefault(account);
    (t, NextTier(t))
  }
}
