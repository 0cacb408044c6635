/** The reward card: whether the balance covers the cost, the progress bar,
    the label beside it and the redeem button. */
module RewardCard {

  /** A JavaScript number where the card can produce one that is not finite. */
  datatype Percent = Finite(value: real) | NegInfinity | NotANumber

  datatype Label = Available | More(points: int)

  datatype CardView = CardView(canRedeem: bool, progress: Percent, status: Label, buttonDisabled: bool)

  /** `Math.min(currentPoints / pointsCost * 100, 100)`; a zero cost divides
      to +Infinity, NaN or -Infinity depending on the balance's sign. */
  function Progress(currentPoints: int, pointsCost: int): (p: Percent)
    ensures p.Finite? ==> p.value <= 100.0
    ensures pointsCost != 0 ==> p.Finite?
    ensures pointsCost != 0 && p.value < 100.0 ==> p.value * (pointsCost as real) == (currentPoints as real) * 100.0
    ensures pointsCost > 0 ==> (p.value == 100.0 <==> currentPoints >= pointsCost)
    ensures pointsCost == 0 ==> (p == Finite(100.0) <==> currentPoints > 0)
    ensures pointsCost == 0 ==> (p == NotANumber <==> currentPoints == 0)
    ensures pointsCost == 0 ==> (p == NegInfinity <==> currentPoints < 0)
  {
    if pointsCost != 0 then
      var share := (currentPoints as real) / (pointsCost as real) * 100.0;
      Finite(if share < 100.0 then share else 100.0)
    else if currentPoints > 0 then Finite(100.0)
    else if currentPoints == 0 then NotANumber
    else NegInfinity
  }

  function View(currentPoints: int, pointsCost: int): (v: CardView)
    ensures v.canRedeem <==> currentPoints >= pointsCost
    ensures v.buttonDisabled <==> !v.canRedeem
    ensures v.status == Available <==> v.canRedeem
    ensures v.status.More? ==> v.status.points == pointsCost - currentPoints && v.status.points > 0
    ensures v.progress == Progress(currentPoints, pointsCost)
  {
    var canRedeem := currentPoints >= pointsCost;
    CardView(canRedeem, Progress(currentPoints, pointsCost),
             if canRedeem then Available else More(pointsCost - currentPoints), !canRedeem)
  }

  /** For a positive cost the bar is full exactly when the reward can be redeemed. */
  lemma FullBarIffRedeemable(currentPoints: int, pointsCost: int)
    requires pointsCost > 0
    ensures View(currentPoints, pointsCost).progress == Finite(100.0) <==> View(currentPoints, pointsCost).canRedeem
  {
    var c, n := currentPoints as real, pointsCost as real;
    var q := c / n;
    assert q * n == c;
    if c >= n {
      assert q >= 1.0;
    } else {
      assert q < 1.0;
    }
  }
}
