/** The store locator: distances attached when a location is known, the
    search and city filters, the three-tier ranking done by sorting the
    filtered array in place, the sorted city list and the favourites toggle. */
module Stores {
  import opened Text
  import opened Domain
  import Lists

  datatype Store = Store(
    id: string,
    name: string,
    address: string,
    city: string,
    province: string,
    phone: Option<string>,
    latitude: Option<real>,
    longitude: Option<real>)

  datatype Location = Location(lat: real, lng: real)

  /** A store together with its distance from the user, if one was computed. */
  datatype Located = Located(store: Store, distance: Option<real>)

  /** A coordinate counts only when it is truthy: present and not zero. */
  predicate Truthy(c: Option<real>)
  {
    c.Some? && c.value != 0.0
  }

  /** The distance of one store; `haversine` stands for the great-circle
      formula applied to the user's and the store's coordinates. */
  function DistanceOf(here: Option<Location>, s: Store, haversine: (real, real, real, real) -> real): (d: Option<real>)
    ensures d.Some? <==> here.Some? && Truthy(s.latitude) && Truthy(s.longitude)
    ensures d.Some? ==> d.value == haversine(here.value.lat, here.value.lng, s.latitude.value, s.longitude.value)
  {
    if here.Some? && Truthy(s.latitude) && Truthy(s.longitude) then
      Some(haversine(here.value.lat, here.value.lng, s.latitude.value, s.longitude.value))
    else None
  }

  /** `storesWithDistance`. */
  function WithDistances(stores: seq<Store>, here: Option<Location>, haversine: (real, real, real, real) -> real): (r: seq<Located>)
    ensures |r| == |stores|
    ensures forall i :: 0 <= i < |r| ==> r[i].store == stores[i] && r[i].distance == DistanceOf(here, stores[i], haversine)
  {
    Lists.Map(stores, s => Located(s, DistanceOf(here, s, haversine)))
  }

  /** Without a location no store has a distance. */
  lemma NoLocationNoDistances(stores: seq<Store>, haversine: (real, real, real, real) -> real)
    ensures forall x :: x in WithDistances(stores, None, haversine) ==> x.distance.None?
  {
  }

  /** The search box and the city filter of `filteredStores`. */
  predicate Matches(query: string, cityFilter: string, s: Store)
  {
    var q := Lower(query);
    (query == [] || Contains(Lower(s.name), q) || Contains(Lower(s.address), q) || Contains(Lower(s.city), q))
    && (cityFilter == "all" || s.city == cityFilter)
  }

  function Filtered(xs: seq<Located>, query: string, cityFilter: string): (r: seq<Located>)
    ensures Lists.IsSubsequence(r, xs)
    ensures forall x :: x in r <==> x in xs && Matches(query, cityFilter, x.store)
    ensures forall x :: multiset(r)[x] == if Matches(query, cityFilter, x.store) then multiset(xs)[x] else 0
  {
    var keep := (x: Located) => Matches(query, cityFilter, x.store);
    Lists.FilterMultiset(xs, keep);
    Lists.Filter(xs, keep)
  }

  /** An empty query with the "all" filter keeps every store. */
  lemma NoFiltersKeepAll(xs: seq<Located>)
    ensures Filtered(xs, "", "all") == xs
  {
    var r := Filtered(xs, "", "all");
    assert Lists.IsSubsequence(r, xs);
    assert |r| == |xs|;
    SubsequenceOfSameLength(r, xs);
  }

  lemma {:induction false} SubsequenceOfSameLength<T>(t: seq<T>, s: seq<T>)
    requires Lists.IsSubsequence(t, s) && |t| == |s|
    ensures t == s
    decreases |s|
  {
    if s != [] {
      if t[0] != s[0] {
        SubsequenceShorter(t, s[1..]);
      } else {
        SubsequenceOfSameLength(t[1..], s[1..]);
        assert t == [t[0]] + t[1..] && s == [s[0]] + s[1..];
      }
    }
  }

  lemma {:induction false} SubsequenceShorter<T>(t: seq<T>, s: seq<T>)
    requires Lists.IsSubsequence(t, s)
    ensures |t| <= |s|
    decreases |s|
  {
    if t != [] && s != [] {
      if t[0] == s[0] { SubsequenceShorter(t[1..], s[1..]); } else { SubsequenceShorter(t, s[1..]); }
    }
  }

  /** `localeCompare` of two names, as its sign. */
  function NameCompare(a: string, b: string): int
  {
    if LexLess(a, b) then -1 else if a == b then 0 else 1
  }

  /** The comparator handed to `result.sort`: the distance difference when
      both have one, -1 or 1 when only one has one, else the name order. */
  function Compare(x: Located, y: Located): real
  {
    if x.distance.Some? && y.distance.Some? then x.distance.value - y.distance.value
    else if x.distance.Some? then -1.0
    else if y.distance.Some? then 1.0
    else NameCompare(x.store.name, y.store.name) as real
  }

  /** Swapping the arguments negates the comparator's result, as a
      consistent comparator must. */
  lemma CompareAntisymmetric(x: Located, y: Located)
    ensures Compare(y, x) == -Compare(x, y)
  {
    LexAsymmetric(x.store.name, y.store.name);
    LexTotal(x.store.name, y.store.name);
  }

  /** The comparator's verdict "`x` may stay before `y`": by distance when
      both have one, a store with a distance before one without, and by name
      when neither has one. */
  predicate RanksBefore(x: Located, y: Located)
  {
    match (x.distance, y.distance)
    case (Some(dx), Some(dy)) => dx <= dy
    case (Some(_), None) => true
    case (None, Some(_)) => false
    case (None, None) => !LexLess(y.store.name, x.store.name)
  }

  /** The verdict holds exactly when the comparator's result is not positive. */
  lemma RanksBeforeIsCompare(x: Located, y: Located)
    ensures RanksBefore(x, y) <==> Compare(x, y) <= 0.0
  {
    LexTotal(x.store.name, y.store.name);
    LexAsymmetric(x.store.name, y.store.name);
  }

  lemma RanksBeforeTotal(x: Located, y: Located)
    ensures RanksBefore(x, y) || RanksBefore(y, x)
  {
    LexAsymmetric(x.store.name, y.store.name);
  }

  lemma RanksBeforeTransitive(x: Located, y: Located, z: Located)
    requires RanksBefore(x, y) && RanksBefore(y, z)
    ensures RanksBefore(x, z)
  {
    if x.distance.None? && y.distance.None? && z.distance.None? {
      var a, b, c := x.store.name, y.store.name, z.store.name;
      if LexLess(c, a) {
        LexTotal(a, b);
        if a != b { LexTransitive(c, a, b); }
      }
    }
  }

  /** Each neighbour pair is in comparator order. */
  predicate AdjacentRanked(s: seq<Located>)
  {
    forall k :: 0 < k < |s| ==> RanksBefore(s[k - 1], s[k])
  }

  /** Every pair is in comparator order. */
  predicate Ranked(s: seq<Located>)
  {
    forall i, j :: 0 <= i < j < |s| ==> RanksBefore(s[i], s[j])
  }

  lemma {:induction false} AdjacentIsRanked(s: seq<Located>)
    requires AdjacentRanked(s)
    ensures Ranked(s)
  {
    if |s| > 1 {
      var p := s[..|s| - 1];
      assert AdjacentRanked(p) by {
        forall k | 0 < k < |p| ensures RanksBefore(p[k - 1], p[k]) {
          assert p[k - 1] == s[k - 1] && p[k] == s[k];
        }
      }
      AdjacentIsRanked(p);
      forall i, j | 0 <= i < j < |s| ensures RanksBefore(s[i], s[j]) {
        if j < |s| - 1 {
          assert s[i] == p[i] && s[j] == p[j];
        } else if i < j - 1 {
          assert RanksBefore(p[i], p[j - 1]);
          RanksBeforeTransitive(s[i], s[j - 1], s[j]);
        }
      }
    }
  }

  /** What the ranking means for the list shown: stores with a distance
      first, those in ascending distance, the rest by name. */
  lemma RankedOrder(s: seq<Located>, i: int, j: int)
    requires Ranked(s) && 0 <= i < j < |s|
    ensures s[j].distance.Some? ==> s[i].distance.Some?
    ensures s[i].distance.Some? && s[j].distance.Some? ==> s[i].distance.value <= s[j].distance.value
    ensures s[i].distance.None? && s[j].distance.None? ==> !LexLess(s[j].store.name, s[i].store.name)
  {
    assert RanksBefore(s[i], s[j]);
  }

  /** `result.sort(comparator)`, in place: an insertion sort that moves each
      element left past every neighbour the comparator puts after it. */
  method RankInPlace(a: array<Located>)
    modifies a
    ensures AdjacentRanked(a[..])
    ensures multiset(a[..]) == multiset(old(a[..]))
  {
    var i := 0;
    while i < a.Length
      invariant 0 <= i <= a.Length
      invariant forall k :: 0 < k < i ==> RanksBefore(a[k - 1], a[k])
      invariant multiset(a[..]) == multiset(old(a[..]))
    {
      SiftDown(a, i);
      i := i + 1;
    }
  }

  /** One insertion step: `a[i]` moves left until its left neighbour may
      stay before it, extending the ranked prefix by one. */
  method SiftDown(a: array<Located>, i: int)
    requires 0 <= i < a.Length
    requires forall k :: 0 < k < i ==> RanksBefore(a[k - 1], a[k])
    modifies a
    ensures forall k :: 0 < k <= i ==> RanksBefore(a[k - 1], a[k])
    ensures multiset(a[..]) == multiset(old(a[..]))
  {
    var j := i;
    while j > 0 && !RanksBefore(a[j - 1], a[j])
      invariant 0 <= j <= i
      invariant forall k :: 0 < k <= i && k != j ==> RanksBefore(a[k - 1], a[k])
      invariant 0 < j < i ==> RanksBefore(a[j - 1], a[j + 1])
      invariant multiset(a[..]) == multiset(old(a[..]))
    {
      RanksBeforeTotal(a[j - 1], a[j]);
      Swap(a, j);
      j := j - 1;
    }
  }

  method Swap(a: array<Located>, j: int)
    requires 0 < j < a.Length
    modifies a
    ensures a[j - 1] == old(a[j]) && a[j] == old(a[j - 1])
    ensures forall k :: 0 <= k < a.Length && k != j - 1 && k != j ==> a[k] == old(a[k])
    ensures multiset(a[..]) == multiset(old(a[..]))
  {
    a[j - 1], a[j] := a[j], a[j - 1];
  }

  /** `filteredStores`: the matching stores, ranked. */
  method FilteredStores(stores: seq<Store>, here: Option<Location>, query: string, cityFilter: string,
                        haversine: (real, real, real, real) -> real)
    returns (result: seq<Located>)
    ensures multiset(result) == multiset(Filtered(WithDistances(stores, here, haversine), query, cityFilter))
    ensures Ranked(result)
  {
    var xs := Filtered(WithDistances(stores, here, haversine), query, cityFilter);
    var a := new Located[|xs|](k requires 0 <= k < |xs| => xs[k]);
    assert a[..] == xs;
    RankInPlace(a);
    result := a[..];
    AdjacentIsRanked(result);
  }

  /** A store is listed exactly when it passes both filters. */
  lemma ListedIffMatches(stores: seq<Store>, here: Option<Location>, query: string, cityFilter: string,
                         haversine: (real, real, real, real) -> real, result: seq<Located>, s: Store)
    requires multiset(result) == multiset(Filtered(WithDistances(stores, here, haversine), query, cityFilter))
    ensures Located(s, DistanceOf(here, s, haversine)) in result <==> s in stores && Matches(query, cityFilter, s)
  {
    var xs := WithDistances(stores, here, haversine);
    var x := Located(s, DistanceOf(here, s, haversine));
    assert x in result <==> x in multiset(result);
    if s in stores {
      var i :| 0 <= i < |stores| && stores[i] == s;
      assert xs[i] == x;
    }
  }

  // ---------------------------------------------------------------------------
  // `cities`: the distinct store cities, sorted.

  predicate StrictlySorted(s: seq<string>)
  {
    forall i, j :: 0 <= i < j < |s| ==> LexLess(s[i], s[j])
  }

  /** Place `c` in a strictly sorted list, unless it is already there. */
  function InsertSorted(c: string, s: seq<string>): (r: seq<string>)
    requires StrictlySorted(s)
    ensures StrictlySorted(r)
    ensures forall x :: x in r <==> x == c || x in s
  {
    if s == [] then [c]
    else if c == s[0] then s
    else if LexLess(c, s[0]) then
      assert forall j :: 0 < j < |s| ==> LexLess(s[0], s[j]);
      forall j | 0 <= j < |s| ensures LexLess(c, s[j]) {
        if j > 0 { LexTransitive(c, s[0], s[j]); }
      }
      [c] + s
    else
      LexTotal(c, s[0]);
      var rest := InsertSorted(c, s[1..]);
      assert forall x :: x in s <==> x == s[0] || x in s[1..];
      assert forall x :: x in rest ==> LexLess(s[0], x);
      [s[0]] + rest
  }

  function AllCities(stores: seq<Store>): (r: seq<string>)
    ensures |r| == |stores| && forall i :: 0 <= i < |stores| ==> r[i] == stores[i].city
  {
    Lists.Map(stores, (s: Store) => s.city)
  }

  /** `[...new Set(stores.map(s => s.city))].sort()`. */
  function Cities(stores: seq<Store>): (r: seq<string>)
    ensures StrictlySorted(r)
    ensures forall c :: c in r <==> c in AllCities(stores)
    decreases |stores|
  {
    if stores == [] then []
    else
      var p := stores[..|stores| - 1];
      assert forall c :: c in AllCities(stores) <==> c in AllCities(p) || c == stores[|stores| - 1].city by {
        assert AllCities(stores) == AllCities(p) + [stores[|stores| - 1].city];
      }
      InsertSorted(stores[|stores| - 1].city, Cities(p))
  }

  /** Strictly sorted means no city is listed twice. */
  lemma CitiesDistinct(stores: seq<Store>, i: int, j: int)
    requires 0 <= i < j < |Cities(stores)|
    ensures Cities(stores)[i] != Cities(stores)[j]
  {
    var r := Cities(stores);
    assert LexLess(r[i], r[j]);
    LexIrreflexive(r[i]);
  }

  // ---------------------------------------------------------------------------
  // Favourites.

  /** `toggleFavorite`: drop every copy of `id` if present, else append it. */
  function ToggleFavorite(favorites: seq<string>, id: string): (r: seq<string>)
    ensures id in r <==> id !in favorites
    ensures forall x :: x != id ==> (x in r <==> x in favorites)
  {
    if id in favorites then Lists.Filter(favorites, (x: string) => x != id) else favorites + [id]
  }

  /** Toggling the same store twice restores which stores are favourites. */
  lemma ToggleTwice(favorites: seq<string>, id: string, x: string)
    ensures x in ToggleFavorite(ToggleFavorite(favorites, id), id) <==> x in favorites
  {
  }
}
