/** `ToolValidator.validate_search_restaurants_tool`: a `search_restaurants`
    call is let through only when each cuisine, location and price range it
    carries is grounded in the user's own words, directly or through a table
    of variations. The check stands alone: the conversation loop does not
    call it. */
module ToolValidation {
  import opened Python
  import opened Messages

  /** `cuisine_variations`: the other words that ground each cuisine. */
  function CuisineVariations(): map<string, seq<string>>
  {
    map[
      "italian" := ["pasta", "pizza", "italian food"],
      "chinese" := ["chinese food", "asian", "dim sum"],
      "japanese" := ["sushi", "ramen", "japanese food"],
      "mexican" := ["tacos", "mexican food", "burritos"],
      "indian" := ["curry", "indian food", "tikka"],
      "thai" := ["thai food", "pad thai"],
      "american" := ["burger", "american food", "steak"],
      "french" := ["french food", "bistro"]
    ]
  }

  /** `location_variations`: the other words that ground each location. */
  function LocationVariations(): map<string, seq<string>>
  {
    map[
      "downtown" := ["city center", "central"],
      "uptown" := ["upper", "north"],
      "midtown" := ["middle", "center"],
      "west side" := ["western", "west"],
      "east side" := ["eastern", "east"],
      "waterfront" := ["by the water", "near water", "riverside", "lakeside"]
    ]
  }

  /** `price_patterns`: the words that name each price level. */
  function PricePatterns(): map<int, seq<string>>
  {
    map[
      1 := ["cheap", "inexpensive", "budget", "affordable"],
      2 := ["moderate", "mid-range", "reasonable"],
      3 := ["expensive", "high-end", "pricey"],
      4 := ["very expensive", "luxury", "top-end", "finest"]
    ]
  }

  /** `price_words`: mentions of price that name no level. */
  function PriceWords(): seq<string>
  {
    ["price", "cost", "expensive", "cheap", "affordable", "budget"]
  }

  /** A lowered value is grounded in the (lowered) query when it occurs in it,
      or when one of its listed variations does. */
  predicate Grounds(query: string, value: string, variations: map<string, seq<string>>)
  {
    Contains(query, value) || (value in variations && ContainsAny(query, variations[value]))
  }

  /** `_mentioned_cuisine`: a value that is not text has no `lower()`. */
  function MentionedCuisine(query: string, cuisine: Json): Outcome<bool>
  {
    if !cuisine.JStr? then Raised(AttributeError)
    else Returned(Grounds(query, Lower(cuisine.s), CuisineVariations()))
  }

  /** `_mentioned_location`, the same test over the location table. */
  function MentionedLocation(query: string, location: Json): Outcome<bool>
  {
    if !location.JStr? then Raised(AttributeError)
    else Returned(Grounds(query, Lower(location.s), LocationVariations()))
  }

  /** `_mentioned_price`: one to four `$` decide alone (comparing their
      number with anything but a number raises TypeError); otherwise a word
      for the level or any general price word grounds it. Looking a JSON
      object up in the level table raises TypeError (it is unhashable). */
  function MentionedPrice(query: string, price: Json): Outcome<bool>
  {
    var dollars := Count(query, '$');
    if 1 <= dollars <= 4 then
      if price.JInt? then Returned(dollars >= price.i) else Raised(TypeError)
    else if price.JObj? then Raised(TypeError)
    else
      Returned((price.JInt? && price.i in PricePatterns() && ContainsAny(query, PricePatterns()[price.i]))
               || ContainsAny(query, PriceWords()))
  }

  /** The body of the loop over the arguments for one `param, value` pair:
      only a truthy cuisine, location or price range is examined. */
  function ArgumentPasses(query: string, param: string, value: Json): Outcome<bool>
  {
    if param == "cuisine" && Truthy(value) then MentionedCuisine(query, value)
    else if param == "location" && Truthy(value) then MentionedLocation(query, value)
    else if param == "price_range" && Truthy(value) then MentionedPrice(query, value)
    else Returned(true)
  }

  /** `validate_search_restaurants_tool(tool_call, user_query)`. No call, or
      a call of another tool, passes. Otherwise the query is lowered and every
      argument must pass; since the first failure returns False and every
      exception (undecodable arguments, arguments that are not an object, a
      value of the wrong type) is caught and also gives False, the order of
      the arguments does not matter. */
  predicate ValidateSearchCall(call: Option<ToolCall>, userQuery: string)
  {
    if call.None? || call.value.name != "search_restaurants" then true
    else
      var query := Lower(userQuery);
      match call.value.arguments
      case Raised(_) => false
      case Returned(args) =>
        args.JObj? && forall p :: p in args.fields ==> ArgumentPasses(query, p, args.fields[p]) == Returned(true)
  }

  /** Calls of the other tools are never held back. */
  lemma OtherCallsAccepted(call: Option<ToolCall>, userQuery: string)
    requires call.None? || call.value.name != "search_restaurants"
    ensures ValidateSearchCall(call, userQuery)
  {
  }

  /** A search call passes exactly when its arguments decode to an object in
      which each truthy cuisine, location and price range is grounded in the
      lowered query; no other argument (party size, limit, anything else)
      can make it fail. */
  lemma SearchCallGrounded(call: ToolCall, userQuery: string)
    requires call.name == "search_restaurants"
    ensures ValidateSearchCall(Some(call), userQuery) <==>
              call.arguments.Returned? && call.arguments.value.JObj?
              && var args := call.arguments.value.fields;
                 var query := Lower(userQuery);
                 && (Truthy(Get(args, "cuisine")) ==> MentionedCuisine(query, Get(args, "cuisine")) == Returned(true))
                 && (Truthy(Get(args, "location")) ==> MentionedLocation(query, Get(args, "location")) == Returned(true))
                 && (Truthy(Get(args, "price_range")) ==> MentionedPrice(query, Get(args, "price_range")) == Returned(true))
  {
    if call.arguments.Returned? && call.arguments.value.JObj? {
      var args := call.arguments.value.fields;
      var query := Lower(userQuery);
      if ValidateSearchCall(Some(call), userQuery) {
        if "cuisine" in args {
          assert ArgumentPasses(query, "cuisine", args["cuisine"]) == Returned(true);
        }
        if "location" in args {
          assert ArgumentPasses(query, "location", args["location"]) == Returned(true);
        }
        if "price_range" in args {
          assert ArgumentPasses(query, "price_range", args["price_range"]) == Returned(true);
        }
      }
    }
  }

  /** Arguments that do not decode to a JSON object reject a search call. */
  lemma UndecodableArgumentsRejected(call: ToolCall, userQuery: string)
    requires call.name == "search_restaurants"
    requires call.arguments.Raised? || !call.arguments.value.JObj?
    ensures !ValidateSearchCall(Some(call), userQuery)
  {
  }

  /** The query is lowered first, so its case never matters. */
  lemma QueryCaseIgnored(call: Option<ToolCall>, userQuery: string)
    ensures ValidateSearchCall(call, userQuery) == ValidateSearchCall(call, Lower(userQuery))
  {
    LowerTwice(userQuery);
  }

  /** With one to four `$` in the query, a price range is grounded exactly
      when it is at most their number, whatever words the query holds. */
  lemma DollarSignsDecide(query: string, level: int)
    requires 1 <= Count(query, '$') <= 4
    ensures MentionedPrice(query, JInt(level)) == Returned(level <= Count(query, '$'))
  {
  }

  /** Without such `$`, a word naming the level grounds it, and so does a
      general price word, for any level at all. */
  lemma PriceWordsGround(query: string, level: int, w: string)
    requires !(1 <= Count(query, '$') <= 4)
    requires (level in PricePatterns() && w in PricePatterns()[level]) || w in PriceWords()
    requires Contains(query, w)
    ensures MentionedPrice(query, JInt(level)) == Returned(true)
  {
  }

  /** "sushi" grounds a cuisine given as "Japanese", through the variations
      table, in a query written in any case. */
  lemma SushiGroundsJapanese()
    ensures ValidateSearchCall(Some(ToolCall("call_1", "search_restaurants",
                                             Returned(JObj(map["cuisine" := JStr("Japanese")])))),
                               "Any SUSHI nearby?")
  {
    var query := Lower("Any SUSHI nearby?");
    assert query[4..9] == "sushi";
    assert OccursAt(query, "sushi", 4);
    assert Lower("Japanese") == "japanese";
    assert "sushi" in CuisineVariations()["japanese"];
    var args := map["cuisine" := JStr("Japanese")];
    forall p | p in args ensures ArgumentPasses(query, p, args[p]) == Returned(true) {
      assert p == "cuisine";
    }
  }
}
