/** The catalogue tools: `search_restaurants` (filters and a limit),
    `get_restaurant_details` (lookup by id) and `recommend_restaurants`
    (a score per restaurant, best first). */
module Search {
  import opened Python
  import opened Restaurants
  import opened Store
  import opened Sorting

  /** `found` followed by the rest of an answer; an exception passes through. */
  function Then<T>(found: seq<T>, rest: Outcome<seq<T>>): Outcome<seq<T>>
  {
    if rest.Raised? then rest else Returned(found + rest.value)
  }

  lemma ThenNothing<T>(o: Outcome<seq<T>>)
    ensures Then([], o) == o
  {
    if o.Returned? {
      assert [] + o.value == o.value;
    }
  }

  // ---------------------------------------------------------------- search_restaurants

  /** The filters of `search_restaurants`, as the tool call gives them. */
  datatype Query = Query(cuisine: Json, location: Json, priceRange: Json, partySize: Json)

  /** The body of the search loop for one restaurant: each truthy filter is
      applied in turn and the first that fails skips the restaurant. Text
      filters call `lower()` (AttributeError on anything but text) and the
      numeric ones compare with `>` (TypeError on anything but a number). */
  function Admits(r: Restaurant, q: Query): Outcome<bool>
  {
    if Truthy(q.cuisine) && !q.cuisine.JStr? then Raised(AttributeError)
    else if Truthy(q.cuisine) && !Contains(Lower(r.cuisine), Lower(q.cuisine.s)) then Returned(false)
    else if Truthy(q.location) && !q.location.JStr? then Raised(AttributeError)
    else if Truthy(q.location) && !Contains(Lower(r.location), Lower(q.location.s)) then Returned(false)
    else if Truthy(q.priceRange) && !q.priceRange.JInt? then Raised(TypeError)
    else if Truthy(q.priceRange) && r.priceRange > q.priceRange.i then Returned(false)
    else if Truthy(q.partySize) && !q.partySize.JInt? then Raised(TypeError)
    else if Truthy(q.partySize) && q.partySize.i > r.capacity then Returned(false)
    else Returned(true)
  }

  /** What a listed restaurant satisfies: each filter that is given (truthy)
      holds, the text ones as case-insensitive substrings; a falsy filter
      (None, "", 0) constrains nothing. */
  predicate Satisfies(r: Restaurant, q: Query)
  {
    (Truthy(q.cuisine) ==> q.cuisine.JStr? && Contains(Lower(r.cuisine), Lower(q.cuisine.s)))
    && (Truthy(q.location) ==> q.location.JStr? && Contains(Lower(r.location), Lower(q.location.s)))
    && (Truthy(q.priceRange) ==> q.priceRange.JInt? && r.priceRange <= q.priceRange.i)
    && (Truthy(q.partySize) ==> q.partySize.JInt? && q.partySize.i <= r.capacity)
  }

  /** A restaurant passes the loop body exactly when it satisfies the filters. */
  lemma AdmitsMeaning(r: Restaurant, q: Query)
    ensures Admits(r, q) == Returned(true) <==> Satisfies(r, q)
  {
  }

  /** The restaurants that pass, in catalogue order. */
  function Matching(rs: seq<Restaurant>, q: Query): seq<Restaurant>
  {
    if rs == [] then []
    else (if Admits(rs[0], q) == Returned(true) then [rs[0]] else []) + Matching(rs[1..], q)
  }

  /** `search_restaurants`: the loop over the catalogue, appending each
      restaurant that passes and stopping once `len(results) >= limit`;
      `room` is `limit` minus the results so far. */
  function SearchFrom(rs: seq<Restaurant>, q: Query, room: int): Outcome<seq<Restaurant>>
  {
    if rs == [] then Returned([])
    else
      match Admits(rs[0], q)
      case Raised(e) => Raised(e)
      case Returned(pass) =>
        if !pass then SearchFrom(rs[1..], q, room)
        else if room <= 1 then Returned([rs[0]])
        else Then([rs[0]], SearchFrom(rs[1..], q, room - 1))
  }

  /** The results are the first matches in catalogue order: a prefix of
      `Matching`, at most `limit` long (one when `limit` is below one, since
      the test comes after the append), and all the matches when there are
      fewer than `limit`. */
  lemma {:induction false} SearchIsPrefix(rs: seq<Restaurant>, q: Query, limit: int)
    requires SearchFrom(rs, q, limit).Returned?
    ensures var out := SearchFrom(rs, q, limit).value;
            |out| <= |Matching(rs, q)| && out == Matching(rs, q)[..|out|]
            && |out| <= (if limit < 1 then 1 else limit)
            && (|Matching(rs, q)| < limit ==> out == Matching(rs, q))
  {
    if rs != [] {
      var m := Matching(rs[1..], q);
      assert Matching(rs, q) == (if Admits(rs[0], q) == Returned(true) then [rs[0]] else []) + m;
      if Admits(rs[0], q) == Returned(false) {
        SearchIsPrefix(rs[1..], q, limit);
      } else if limit > 1 {
        SearchIsPrefix(rs[1..], q, limit - 1);
        var rest := SearchFrom(rs[1..], q, limit - 1).value;
        assert ([rs[0]] + m)[..1 + |rest|] == [rs[0]] + m[..|rest|];
      }
    }
  }

  /** Every listed restaurant is in the catalogue and satisfies the filters. */
  lemma SearchResultsSatisfy(rs: seq<Restaurant>, q: Query, limit: int)
    requires SearchFrom(rs, q, limit).Returned?
    ensures forall r :: r in SearchFrom(rs, q, limit).value ==> r in rs && Satisfies(r, q)
  {
    SearchIsPrefix(rs, q, limit);
    MatchingMembers(rs, q);
    var out := SearchFrom(rs, q, limit).value;
    forall r | r in out ensures r in rs && Satisfies(r, q) {
      var k :| 0 <= k < |out| && out[k] == r;
      assert Matching(rs, q)[k] == r;
      AdmitsMeaning(r, q);
    }
  }

  lemma {:induction false} MatchingMembers(rs: seq<Restaurant>, q: Query)
    ensures forall r :: r in Matching(rs, q) <==> r in rs && Admits(r, q) == Returned(true)
  {
    if rs != [] {
      MatchingMembers(rs[1..], q);
      assert rs == [rs[0]] + rs[1..];
    }
  }

  /** Without any filter the search lists the catalogue from the start. */
  lemma {:induction false} NoFiltersMatchAll(rs: seq<Restaurant>, q: Query)
    requires !Truthy(q.cuisine) && !Truthy(q.location) && !Truthy(q.priceRange) && !Truthy(q.partySize)
    ensures Matching(rs, q) == rs
  {
    if rs != [] {
      NoFiltersMatchAll(rs[1..], q);
      assert rs == [rs[0]] + rs[1..];
    }
  }

  /** One turn of the search loop. */
  lemma SearchStep(rs: seq<Restaurant>, i: nat, q: Query, room: int, results: seq<Restaurant>)
    requires i < |rs|
    ensures Admits(rs[i], q).Raised? ==>
              Then(results, SearchFrom(rs[i..], q, room)) == Raised(Admits(rs[i], q).exc)
    ensures Admits(rs[i], q) == Returned(false) ==>
              Then(results, SearchFrom(rs[i..], q, room)) == Then(results, SearchFrom(rs[i + 1..], q, room))
    ensures Admits(rs[i], q) == Returned(true) && room <= 1 ==>
              Then(results, SearchFrom(rs[i..], q, room)) == Returned(results + [rs[i]])
    ensures Admits(rs[i], q) == Returned(true) && room > 1 ==>
              Then(results, SearchFrom(rs[i..], q, room)) == Then(results + [rs[i]], SearchFrom(rs[i + 1..], q, room - 1))
  {
    assert rs[i..][1..] == rs[i + 1..];
    var rest := SearchFrom(rs[i + 1..], q, room - 1);
    if rest.Returned? {
      assert results + ([rs[i]] + rest.value) == (results + [rs[i]]) + rest.value;
    }
  }

  /** `search_restaurants` over the store's catalogue. */
  method SearchRestaurants(store: DataStore, q: Query, limit: int) returns (o: Outcome<seq<Restaurant>>)
    ensures o == SearchFrom(store.restaurants, q, limit)
  {
    var restaurants := store.restaurants;
    var results: seq<Restaurant> := [];
    var i := 0;
    assert restaurants[0..] == restaurants;
    ThenNothing(SearchFrom(restaurants, q, limit));
    while i < |restaurants|
      invariant i <= |restaurants|
      invariant SearchFrom(restaurants, q, limit) ==
                Then(results, SearchFrom(restaurants[i..], q, limit - |results|))
    {
      var r := restaurants[i];
      SearchStep(restaurants, i, q, limit - |results|, results);
      if Truthy(q.cuisine) && !q.cuisine.JStr? {
        return Raised(AttributeError);
      }
      if Truthy(q.cuisine) && !Contains(Lower(r.cuisine), Lower(q.cuisine.s)) {
        i := i + 1;
        continue;
      }
      if Truthy(q.location) && !q.location.JStr? {
        return Raised(AttributeError);
      }
      if Truthy(q.location) && !Contains(Lower(r.location), Lower(q.location.s)) {
        i := i + 1;
        continue;
      }
      if Truthy(q.priceRange) && !q.priceRange.JInt? {
        return Raised(TypeError);
      }
      if Truthy(q.priceRange) && r.priceRange > q.priceRange.i {
        i := i + 1;
        continue;
      }
      if Truthy(q.partySize) && !q.partySize.JInt? {
        return Raised(TypeError);
      }
      if Truthy(q.partySize) && q.partySize.i > r.capacity {
        i := i + 1;
        continue;
      }
      results := results + [r];
      if |results| >= limit {
        return Returned(results);
      }
      i := i + 1;
    }
    assert restaurants[i..] == [];
    assert results + [] == results;
    o := Returned(results);
  }

  // ---------------------------------------------------------------- get_restaurant_details

  /** `get_restaurant_details`: exactly `get_restaurant`, an exact match on
      the id; an id that is not text matches nothing. */
  method GetRestaurantDetails(store: DataStore, rid: Json) returns (r: Option<Restaurant>)
    ensures r == RestaurantById(store.restaurants, rid)
    ensures r.Some? ==> r.value in store.restaurants && rid == JStr(r.value.id)
  {
    r := None;
    if rid.JStr? {
      r := store.GetRestaurant(rid.s);
    }
  }

  // ---------------------------------------------------------------- recommend_restaurants

  /** The score of `recommend_restaurants` in units of 1/20, so that half the
      rating (kept in tenths of a star) stays whole: 3 points (60) for a
      matching cuisine, 2 (40) for a matching location, 1 (20) for a price
      range within the preference, plus `rating * 0.5` (the rating in
      tenths). A preference of the wrong type raises as in the search. */
  function Score(r: Restaurant, prefs: map<string, Json>): Outcome<int>
  {
    var cuisine := Get(prefs, "cuisine");
    var location := Get(prefs, "location");
    var price := Get(prefs, "price_range");
    if Truthy(cuisine) && !cuisine.JStr? then Raised(AttributeError)
    else if Truthy(location) && !location.JStr? then Raised(AttributeError)
    else if Truthy(price) && !price.JInt? then Raised(TypeError)
    else
      Returned((if Truthy(cuisine) && Contains(Lower(r.cuisine), Lower(cuisine.s)) then 60 else 0)
               + (if Truthy(location) && Contains(Lower(r.location), Lower(location.s)) then 40 else 0)
               + (if Truthy(price) && r.priceRange <= price.i then 20 else 0)
               + r.rating)
  }

  /** `(restaurant, score)` for each restaurant, in catalogue order. */
  function ScoreAll(rs: seq<Restaurant>, prefs: map<string, Json>): (o: Outcome<seq<(Restaurant, int)>>)
    ensures o.Returned? ==> |o.value| == |rs|
    ensures o.Returned? ==> forall i :: 0 <= i < |rs| ==> o.value[i].0 == rs[i] && Score(rs[i], prefs) == Returned(o.value[i].1)
  {
    if rs == [] then Returned([])
    else
      match Score(rs[0], prefs)
      case Raised(e) => Raised(e)
      case Returned(s) => Then([(rs[0], s)], ScoreAll(rs[1..], prefs))
  }

  /** `key=lambda x: x[1], reverse=True`: Python's reversed sort is stable,
      so it is the stable sort by the negated score. */
  function Descending(p: (Restaurant, int)): int
  {
    -p.1
  }

  function Firsts(ps: seq<(Restaurant, int)>): (rs: seq<Restaurant>)
    ensures |rs| == |ps|
  {
    seq(|ps|, i requires 0 <= i < |ps| => ps[i].0)
  }

  /** `recommend_restaurants`: scored, sorted best first, the first `limit`. */
  function Recommend(rs: seq<Restaurant>, prefs: map<string, Json>, limit: int): Outcome<seq<Restaurant>>
  {
    match ScoreAll(rs, prefs)
    case Raised(e) => Raised(e)
    case Returned(scored) => Returned(Firsts(SliceTo(SortByKey(scored, Descending), limit)))
  }

  /** `recommend_restaurants` over the store's catalogue. */
  method RecommendRestaurants(store: DataStore, prefs: map<string, Json>, limit: int)
    returns (o: Outcome<seq<Restaurant>>)
    ensures o == Recommend(store.restaurants, prefs, limit)
  {
    var cuisine, location, price := Get(prefs, "cuisine"), Get(prefs, "location"), Get(prefs, "price_range");
    var restaurants := store.restaurants;
    var scored: seq<(Restaurant, int)> := [];
    var i := 0;
    assert restaurants[0..] == restaurants;
    ThenNothing(ScoreAll(restaurants, prefs));
    while i < |restaurants|
      invariant i <= |restaurants|
      invariant ScoreAll(restaurants, prefs) == Then(scored, ScoreAll(restaurants[i..], prefs))
    {
      var r := restaurants[i];
      ScoreStep(restaurants, i, prefs, scored);
      var score := ScoreRestaurant(r, prefs, cuisine, location, price);
      if score.Raised? {
        return Raised(score.exc);
      }
      scored := scored + [(r, score.value)];
      i := i + 1;
    }
    assert restaurants[i..] == [];
    assert scored + [] == scored;
    var ranked := SortByKey(scored, Descending);
    o := Returned(Firsts(SliceTo(ranked, limit)));
  }

  /** The body of the scoring loop for one restaurant, given the three
      preferences read from `prefs`. */
  method ScoreRestaurant(r: Restaurant, prefs: map<string, Json>, cuisine: Json, location: Json, price: Json)
    returns (o: Outcome<int>)
    requires cuisine == Get(prefs, "cuisine") && location == Get(prefs, "location") && price == Get(prefs, "price_range")
    ensures o == Score(r, prefs)
  {
    var score := 0;
    if Truthy(cuisine) {
      if !cuisine.JStr? {
        return Raised(AttributeError);
      }
      if Contains(Lower(r.cuisine), Lower(cuisine.s)) {
        score := score + 60;
      }
    }
    if Truthy(location) {
      if !location.JStr? {
        return Raised(AttributeError);
      }
      if Contains(Lower(r.location), Lower(location.s)) {
        score := score + 40;
      }
    }
    if Truthy(price) {
      if !price.JInt? {
        return Raised(TypeError);
      }
      if r.priceRange <= price.i {
        score := score + 20;
      }
    }
    o := Returned(score + r.rating);
  }

  /** One turn of the scoring loop. */
  lemma ScoreStep(rs: seq<Restaurant>, i: nat, prefs: map<string, Json>, scored: seq<(Restaurant, int)>)
    requires i < |rs|
    ensures Score(rs[i], prefs).Raised? ==>
              Then(scored, ScoreAll(rs[i..], prefs)) == Raised(Score(rs[i], prefs).exc)
    ensures Score(rs[i], prefs).Returned? ==>
              Then(scored, ScoreAll(rs[i..], prefs)) ==
              Then(scored + [(rs[i], Score(rs[i], prefs).value)], ScoreAll(rs[i + 1..], prefs))
  {
    assert rs[i..][1..] == rs[i + 1..];
    var rest := ScoreAll(rs[i + 1..], prefs);
    if rest.Returned? && Score(rs[i], prefs).Returned? {
      var p := (rs[i], Score(rs[i], prefs).value);
      assert scored + ([p] + rest.value) == (scored + [p]) + rest.value;
    }
  }

  /** The recommendations come best first: scores never increase along the
      list, the first has the highest score of the whole catalogue, and
      there are `min(limit, n)` of them for a `limit` of 0 or more. */
  lemma RecommendRanked(rs: seq<Restaurant>, prefs: map<string, Json>, limit: int)
    requires Recommend(rs, prefs, limit).Returned?
    ensures var scored := ScoreAll(rs, prefs).value;
            var ranked := SliceTo(SortByKey(scored, Descending), limit);
            && Recommend(rs, prefs, limit).value == Firsts(ranked)
            && (forall i, j :: 0 <= i < j < |ranked| ==> ranked[i].1 >= ranked[j].1)
            && (ranked != [] ==> forall p :: p in scored ==> ranked[0].1 >= p.1)
            && (0 <= limit ==> |ranked| == if limit <= |rs| then limit else |rs|)
  {
    var scored := ScoreAll(rs, prefs).value;
    var sorted := SortByKey(scored, Descending);
    var ranked := SliceTo(sorted, limit);
    SortByKeySorted(scored, Descending);
    forall i, j | 0 <= i < j < |ranked| ensures ranked[i].1 >= ranked[j].1 {
      assert ranked[i] == sorted[i] && ranked[j] == sorted[j];
      assert Descending(sorted[i]) <= Descending(sorted[j]);
    }
    if ranked != [] {
      forall p | p in scored ensures ranked[0].1 >= p.1 {
        assert p in multiset(sorted);
        var k :| 0 <= k < |sorted| && sorted[k] == p;
        assert Descending(sorted[0]) <= Descending(sorted[k]);
      }
    }
  }

  /** Equal scores keep catalogue order: for every score, the restaurants
      carrying it come in the order of the catalogue (Python's sort is
      stable, and so is its reversed form). */
  lemma RecommendTiesKeepOrder(rs: seq<Restaurant>, prefs: map<string, Json>, v: int)
    requires ScoreAll(rs, prefs).Returned?
    ensures WithKey(SortByKey(ScoreAll(rs, prefs).value, Descending), Descending, -v) ==
            WithKey(ScoreAll(rs, prefs).value, Descending, -v)
  {
    SortByKeyStable(ScoreAll(rs, prefs).value, Descending, -v);
  }

  /** Beyond the rating the score moves in steps of one point (20), at most
      six; a cuisine match always brings three, and five or more are only
      reached with one (a location and a price match bring three together). */
  lemma ScoreParts(r: Restaurant, prefs: map<string, Json>)
    requires Score(r, prefs).Returned?
    ensures var s := Score(r, prefs).value - r.rating;
            var cuisineMatch := Truthy(Get(prefs, "cuisine"))
                                && Contains(Lower(r.cuisine), Lower(Get(prefs, "cuisine").s));
            0 <= s <= 120 && s % 20 == 0
            && (cuisineMatch ==> s >= 60)
            && (s >= 100 ==> cuisineMatch)
  {
  }
}
