/** The tier card: the multiplier of the current tier, the percentage
    towards the next threshold, the clamped bar and the points still needed. */
module TierProgressCard {
  import opened Domain

  /** `tierConfig[tier].multiplier`, as a number. */
  function Multiplier(t: Tier): (m: real)
    ensures 1.0 <= m <= 2.0
  {
    match t
    case Silver => 1.0
    case Gold => 1.5
    case Platinum => 2.0
  }

  /** A higher tier earns at a strictly higher multiplier. */
  lemma MultiplierIncreases(a: Tier, b: Tier)
    requires TierRank(a) < TierRank(b)
    ensures Multiplier(a) < Multiplier(b)
  {
  }

  /** What the card draws from its four props. */
  datatype TierView = TierView(
    multiplier: real,
    progress: real,
    showsNext: bool,
    barWidth: real,
    remaining: int)

  /** `progress` is the share of the threshold reached (100 with no
      threshold or a zero one); the bar is that share capped at 100; the
      points still needed are not capped. */
  function View(currentTier: Tier, currentPoints: int, nextTierPoints: Option<int>, nextTier: Option<Tier>): (v: TierView)
    ensures v.multiplier == Multiplier(currentTier)
    ensures v.barWidth <= 100.0 && (v.progress <= 100.0 ==> v.barWidth == v.progress)
    ensures v.progress >= 100.0 ==> v.barWidth == 100.0
    ensures nextTierPoints.None? || nextTierPoints.value == 0 ==> v.progress == 100.0
    ensures nextTierPoints.Some? && nextTierPoints.value != 0 ==>
              v.progress * (nextTierPoints.value as real) == (currentPoints as real) * 100.0
    ensures v.showsNext <==> nextTier.Some? && nextTierPoints.Some? && nextTierPoints.value != 0
    ensures nextTierPoints.Some? ==> v.remaining == nextTierPoints.value - currentPoints
  {
    var progress :=
      if nextTierPoints.Some? && nextTierPoints.value != 0
      then (currentPoints as real) / (nextTierPoints.value as real) * 100.0
      else 100.0;
    TierView(
      Multiplier(currentTier),
      progress,
      nextTier.Some? && nextTierPoints.Some? && nextTierPoints.value != 0,
      if progress < 100.0 then progress else 100.0,
      if nextTierPoints.Some? then nextTierPoints.value - currentPoints else 0)
  }

  /** Against a positive threshold, the bar is full exactly when no points
      remain, and it never goes below zero for a non-negative balance. */
  lemma FullBarIffNothingRemaining(t: Tier, current: int, next: int, nt: Option<Tier>)
    requires next > 0
    ensures View(t, current, Some(next), nt).barWidth == 100.0 <==> View(t, current, Some(next), nt).remaining <= 0
    ensures current >= 0 ==> View(t, current, Some(next), nt).barWidth >= 0.0
  {
    var c, n := current as real, next as real;
    var q := c / n;
    assert q * n == c;
    if c >= n {
      assert q >= 1.0;
    } else {
      assert q < 1.0;
    }
    if c >= 0.0 {
      assert q >= 0.0;
    }
  }

  /** The card as the home and profile screens fill it: the props come
      from the tier table entry of the tier shown. */
  function FromTable(t: Tier, current: int): TierView
  {
    var step := NextTier(t);
    View(t, current,
         if step.Some? then Some(step.value.points as int) else None,
         if step.Some? then Some(step.value.next) else None)
  }

  /** Fed from the tier table, the next-tier section shows for every tier
      but the top one. */
  lemma SectionShownBelowTop(t: Tier, current: int)
    ensures FromTable(t, current).showsNext <==> t != Platinum
  {
  }
}
