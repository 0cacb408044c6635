/** The purchase history screen: the fetched purchases with their item
    lists normalised, the three running totals, and the expandable card. */
module PurchaseHistory {
  import opened Domain

  datatype PurchaseItem = PurchaseItem(name: string, quantity: int)

  /** The `items_summary` column is free-form JSON. */
  datatype ItemsJson = JsonArray(items: seq<PurchaseItem>) | JsonOther

  datatype RawPurchase = RawPurchase(
    id: string,
    receiptReference: string,
    totalAmount: real,
    discountApplied: real,
    pointsEarned: int,
    itemsSummary: ItemsJson,
    purchaseDate: string)

  datatype Purchase = Purchase(
    id: string,
    receiptReference: string,
    totalAmount: real,
    discountApplied: real,
    pointsEarned: int,
    items: seq<PurchaseItem>,
    purchaseDate: string)

  /** `Array.isArray(items_summary) ? items_summary : []`. */
  function Normalise(p: RawPurchase): (q: Purchase)
    ensures q.items == (if p.itemsSummary.JsonArray? then p.itemsSummary.items else [])
    ensures q.id == p.id && q.totalAmount == p.totalAmount && q.discountApplied == p.discountApplied
    ensures q.pointsEarned == p.pointsEarned && q.receiptReference == p.receiptReference
  {
    Purchase(p.id, p.receiptReference, p.totalAmount, p.discountApplied, p.pointsEarned,
             if p.itemsSummary.JsonArray? then p.itemsSummary.items else [], p.purchaseDate)
  }

  function NormaliseAll(ps: seq<RawPurchase>): (r: seq<Purchase>)
    ensures |r| == |ps| && forall i :: 0 <= i < |ps| ==> r[i] == Normalise(ps[i])
  {
    if ps == [] then [] else [Normalise(ps[0])] + NormaliseAll(ps[1..])
  }

  /** `purchases.reduce((sum, p) => sum + f(p), 0)`. */
  function Total(ps: seq<Purchase>, f: Purchase -> real): (t: real)
  {
    if ps == [] then 0.0 else Total(ps[..|ps| - 1], f) + f(ps[|ps| - 1])
  }

  function TotalSpent(ps: seq<Purchase>): real { Total(ps, (p: Purchase) => p.totalAmount) }
  function TotalPoints(ps: seq<Purchase>): real { Total(ps, (p: Purchase) => p.pointsEarned as real) }
  function TotalSaved(ps: seq<Purchase>): real { Total(ps, (p: Purchase) => p.discountApplied) }

  /** The points earned, added as whole numbers. */
  function PointsSum(ps: seq<Purchase>): int
  {
    if ps == [] then 0 else PointsSum(ps[..|ps| - 1]) + ps[|ps| - 1].pointsEarned
  }

  /** `totalPoints` is the whole-number sum of the points earned. */
  lemma {:induction false} TotalPointsWhole(ps: seq<Purchase>)
    ensures TotalPoints(ps) == PointsSum(ps) as real
  {
    if ps != [] {
      TotalPointsWhole(ps[..|ps| - 1]);
    }
  }

  /** Each of the three totals, read from the front: the first purchase's
      field plus the total of the rest. */
  lemma TotalsOfPrepend(p: Purchase, ps: seq<Purchase>)
    ensures TotalSpent([p] + ps) == p.totalAmount + TotalSpent(ps)
    ensures TotalPoints([p] + ps) == p.pointsEarned as real + TotalPoints(ps)
    ensures TotalSaved([p] + ps) == p.discountApplied + TotalSaved(ps)
  {
    var spent, points, saved := (q: Purchase) => q.totalAmount, (q: Purchase) => q.pointsEarned as real, (q: Purchase) => q.discountApplied;
    TotalAppend([p], ps, spent);
    TotalAppend([p], ps, points);
    TotalAppend([p], ps, saved);
    TotalSingle(p, spent);
    TotalSingle(p, points);
    TotalSingle(p, saved);
  }

  /** The totals of an empty history are zero. */
  lemma EmptyTotals()
    ensures TotalSpent([]) == 0.0 && TotalPoints([]) == 0.0 && TotalSaved([]) == 0.0
  {
  }

  /** A total over two runs of purchases is the sum of their totals. */
  lemma {:induction false} TotalAppend(a: seq<Purchase>, b: seq<Purchase>, f: Purchase -> real)
    ensures Total(a + b, f) == Total(a, f) + Total(b, f)
    decreases |b|
  {
    if b == [] {
      assert a + b == a;
    } else {
      var n := |b| - 1;
      assert (a + b)[..|a + b| - 1] == a + b[..n];
      TotalAppend(a, b[..n], f);
    }
  }

  /** A single purchase's total is its own amount. */
  lemma TotalSingle(p: Purchase, f: Purchase -> real)
    ensures Total([p], f) == f(p)
  {
    assert [p][..0] == [];
  }

  /** Totals of non-negative amounts are non-negative. */
  lemma {:induction false} TotalNonNegative(ps: seq<Purchase>, f: Purchase -> real)
    requires forall i :: 0 <= i < |ps| ==> f(ps[i]) >= 0.0
    ensures Total(ps, f) >= 0.0
  {
    if ps != [] {
      TotalNonNegative(ps[..|ps| - 1], f);
    }
  }

  class HistoryScreen {
    var purchases: seq<Purchase>
    var isLoading: bool
    var selected: Option<Purchase>

    constructor()
      ensures purchases == [] && isLoading && selected.None?
    {
      purchases, isLoading, selected := [], true, None;
    }

    /** The fetch effect. Without an account id nothing is asked. Otherwise
        the helper answers a list or throws (`None`, only logged); only a
        non-empty list replaces the purchases. Loading ends either way. */
    method Fetched(accountId: Option<string>, result: Option<seq<RawPurchase>>)
      modifies this
      ensures !isLoading && selected == old(selected)
      ensures accountId.None? || accountId.value == "" ==> purchases == old(purchases)
      ensures accountId.Some? && accountId.value != "" && result.Some? && result.value != [] ==>
        purchases == NormaliseAll(result.value)
      ensures result.None? || result.value == [] ==> purchases == old(purchases)
    {
      if accountId.None? || accountId.value == "" {
        isLoading := false;
        return;
      }
      isLoading := true;
      if result.Some? && |result.value| > 0 {
        purchases := NormaliseAll(result.value);
      }
      isLoading := false;
    }

    /** A click on a card: the open card closes, any other one opens. */
    method Click(p: Purchase)
      modifies this
      ensures old(selected).Some? && old(selected).value.id == p.id ==> selected.None?
      ensures !(old(selected).Some? && old(selected).value.id == p.id) ==> selected == Some(p)
      ensures purchases == old(purchases) && isLoading == old(isLoading)
    {
      if selected.Some? && selected.value.id == p.id {
        selected := None;
      } else {
        selected := Some(p);
      }
    }
  }

  /** Clicking the same card twice from a closed state closes it again. */
  method ClickTwiceCloses(p: Purchase) returns (afterOne: Option<Purchase>, afterTwo: Option<Purchase>)
    ensures afterOne == Some(p) && afterTwo.None?
  {
    var screen := new HistoryScreen();
    screen.Click(p);
    afterOne := screen.selected;
    screen.Click(p);
    afterTwo := screen.selected;
  }
}
