/** The deals screen: the category chips and search box that filter the
    list, the "ending soon" badge window, the chip list taken from the
    fetched deals, and the rotating fallback picture. */
module Deals {
  import opened Text
  import opened Domain
  import Lists

  datatype Deal = Deal(
    id: string,
    title: string,
    description: Option<string>,
    discountValue: string,
    validUntil: int,   // milliseconds since the epoch
    category: string,
    isMemberOnly: bool,
    imageUrl: Option<string>)

  /** The chip filter: "all", or the same category ignoring case. */
  predicate CategoryMatches(activeCategory: string, d: Deal)
  {
    activeCategory == "all" || Lower(d.category) == Lower(activeCategory)
  }

  /** The search box: empty, or a case-insensitive substring of the title
      or of the description (a missing description searched as ""). */
  predicate SearchMatches(query: string, d: Deal)
  {
    var q := Lower(query);
    query == [] || Contains(Lower(d.title), q) || Contains(Lower(d.description.GetOr("")), q)
  }

  /** `filteredDeals`. */
  function FilteredDeals(deals: seq<Deal>, activeCategory: string, query: string): (r: seq<Deal>)
    ensures Lists.IsSubsequence(r, deals)
    ensures forall d :: d in r <==> d in deals && CategoryMatches(activeCategory, d) && SearchMatches(query, d)
    ensures forall d :: multiset(r)[d] == if CategoryMatches(activeCategory, d) && SearchMatches(query, d) then multiset(deals)[d] else 0
  {
    var keep := (d: Deal) => CategoryMatches(activeCategory, d) && SearchMatches(query, d);
    Lists.FilterMultiset(deals, keep);
    Lists.Filter(deals, keep)
  }

  /** A deal with no description is found only through its title. */
  lemma MissingDescriptionSearchesTitle(query: string, d: Deal)
    requires d.description.None? && query != []
    ensures SearchMatches(query, d) <==> Contains(Lower(d.title), Lower(query))
  {
    if Contains(Lower(""), Lower(query)) {
      ContainsIffWindow(Lower(""), Lower(query));
    }
  }

  /** Seven days in milliseconds. */
  const Week: int := 7 * 24 * 60 * 60 * 1000

  /** `isEndingSoon`: the deal is still valid and expires within a week. */
  predicate IsEndingSoon(validUntil: int, now: int)
    ensures IsEndingSoon(validUntil, now) <==> now < validUntil < now + 604800000
  {
    var diff := validUntil - now;
    diff > 0 && diff < Week
  }

  /** The badge window is the open interval of one week before expiry:
      a deal that is ending soon stays so until it expires. */
  lemma EndingSoonWindow(validUntil: int, now: int, later: int)
    requires IsEndingSoon(validUntil, now) && now <= later
    ensures IsEndingSoon(validUntil, later) <==> later < validUntil
    ensures validUntil - now < 604800000
  {
  }

  function CategoriesOf(deals: seq<Deal>): (r: seq<string>)
    ensures |r| == |deals| && forall i :: 0 <= i < |deals| ==> r[i] == deals[i].category
  {
    Lists.Map(deals, (d: Deal) => d.category)
  }

  /** The chips: each category once, in the order it first appears. */
  function Categories(deals: seq<Deal>): (r: seq<string>)
    ensures Lists.NoDuplicates(r)
    ensures forall c :: c in r <==> exists i :: 0 <= i < |deals| && deals[i].category == c
    ensures forall c :: c in r <==> c in CategoriesOf(deals)
    ensures forall i, j :: 0 <= i < j < |r| ==>
      Lists.FirstIndex(CategoriesOf(deals), r[i]) < Lists.FirstIndex(CategoriesOf(deals), r[j])
  {
    var cs := CategoriesOf(deals);
    assert forall c :: c in cs <==> exists i :: 0 <= i < |deals| && deals[i].category == c by {
      forall c | c in cs ensures exists i :: 0 <= i < |deals| && deals[i].category == c {
        var i :| 0 <= i < |cs| && cs[i] == c;
      }
    }
    Lists.Distinct(cs)
  }

  /** Every chip finds at least one deal when the search box is empty. */
  lemma ChipNeverEmpty(deals: seq<Deal>, c: string)
    requires c in Categories(deals)
    ensures FilteredDeals(deals, c, "") != []
  {
    var i :| 0 <= i < |deals| && deals[i].category == c;
    assert deals[i] in deals;
    assert CategoryMatches(c, deals[i]) && SearchMatches("", deals[i]);
    assert deals[i] in FilteredDeals(deals, c, "");
  }

  datatype DealsError = DealsError(message: string)

  /** What the screen holds between fetches. */
  datatype DealsState = DealsState(deals: seq<Deal>, categories: seq<string>, isLoading: bool)

  /** The fetch effect completing: the list and the chips are replaced only
      by data that came with no error; loading ends either way. */
  function AfterFetch(st: DealsState, data: Option<seq<Deal>>, error: Option<DealsError>): (r: DealsState)
    ensures !r.isLoading
    ensures error.None? && data.Some? ==> r.deals == data.value && r.categories == Categories(data.value)
    ensures error.Some? || data.None? ==> r.deals == st.deals && r.categories == st.categories
  {
    if error.None? && data.Some? then DealsState(data.value, Categories(data.value), false)
    else st.(isLoading := false)
  }

  /** After any fetch, every chip matches a deal on the screen, provided the
      chips matched before. */
  lemma ChipsMatchAfterFetch(st: DealsState, data: Option<seq<Deal>>, error: Option<DealsError>, c: string)
    requires forall k :: k in st.categories ==> k in Categories(st.deals)
    requires c in AfterFetch(st, data, error).categories
    ensures FilteredDeals(AfterFetch(st, data, error).deals, c, "") != []
  {
    ChipNeverEmpty(AfterFetch(st, data, error).deals, c);
  }

  /** The bundled pictures a deal without its own image falls back to. */
  const DealImageCount: nat := 9

  datatype CardImage = Uploaded(url: string) | Bundled(index: nat)

  /** `deal.image_url || dealImages[index % dealImages.length]`. */
  function ImageFor(d: Deal, position: nat): (r: CardImage)
    ensures r.Bundled? <==> d.imageUrl.None? || d.imageUrl.value == ""
    ensures r.Bundled? ==> r.index < DealImageCount
  {
    if d.imageUrl.Some? && d.imageUrl.value != "" then Uploaded(d.imageUrl.value)
    else Bundled(position % DealImageCount)
  }

  /** Among any nine consecutive cards, no two fall back to the same picture. */
  lemma FallbackRotates(d: Deal, e: Deal, i: nat, j: nat)
    requires i < j < i + DealImageCount
    requires ImageFor(d, i).Bundled? && ImageFor(e, j).Bundled?
    ensures ImageFor(d, i) != ImageFor(e, j)
  {
    var q, r := i / 9, i % 9;
    var q', r' := j / 9, j % 9;
    assert i == 9 * q + r && j == 9 * q' + r';
  }
}
