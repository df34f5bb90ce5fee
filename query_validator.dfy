/** `QueryValidator`: whether a user query is too vague to search on, and
    the question asked back when it is. The "patterns" of the source are
    alternations of literal words, so every test is a substring test. The
    check stands alone: the conversation loop does not call it. */
module QueryValidation {
  import opened Python

  /** The words of `cuisine_pattern`. */
  function CuisineWords(): seq<string>
  {
    ["italian", "french", "indian", "chinese", "japanese", "thai", "mexican", "american", "mediterranean"]
  }

  /** The words of `location_pattern`. */
  function LocationWords(): seq<string>
  {
    ["downtown", "uptown", "midtown", "west side", "east side", "waterfront"]
  }

  /** The other signs of a specific request. */
  function CriteriaWords(): seq<string>
  {
    ["search", "find", "looking for", "price", "$", "people", "person"]
  }

  /** `vague_patterns`, in order. */
  function VaguePhrases(): seq<string>
  {
    ["show me options", "give me options", "list restaurants", "what do you have", "what's available",
     "show me restaurants", "give me restaurants", "restaurants", "options"]
  }

  /** The lowered query names a cuisine, a location or another criterion. */
  predicate Specific(q: string)
  {
    ContainsAny(q, CuisineWords()) || ContainsAny(q, LocationWords()) || ContainsAny(q, CriteriaWords())
  }

  /** `is_vague_query`: on the lowered query, anything specific makes it not
      vague; otherwise it is vague when it holds a vague phrase, and not vague
      when it holds none. */
  predicate IsVague(query: string)
  {
    var q := Lower(query);
    !Specific(q) && ContainsAny(q, VaguePhrases())
  }

  /** Since "restaurants" and "options" are phrases of their own, the list
      comes down to four: a query is vague exactly when it is not specific
      and holds "restaurants", "options", "what do you have" or
      "what's available". */
  lemma VagueReduces(query: string)
    ensures var q := Lower(query);
            IsVague(query) <==>
              !Specific(q)
              && (Contains(q, "restaurants") || Contains(q, "options")
                  || Contains(q, "what do you have") || Contains(q, "what's available"))
  {
    VaguePhrasesReduce(Lower(query));
  }

  /** The four phrases every vague phrase contains. */
  predicate CoreVague(q: string)
  {
    Contains(q, "restaurants") || Contains(q, "options")
    || Contains(q, "what do you have") || Contains(q, "what's available")
  }

  lemma VaguePhrasesReduce(q: string)
    ensures ContainsAny(q, VaguePhrases()) <==> CoreVague(q)
  {
    var phrases := VaguePhrases();
    if ContainsAny(q, phrases) {
      var j :| 0 <= j < |phrases| && Contains(q, phrases[j]);
      PhraseHoldsCore(j);
      CoreVagueTransitive(q, phrases[j]);
    }
    if CoreVague(q) {
      if Contains(q, "restaurants") {
        assert Contains(q, phrases[7]);
      } else if Contains(q, "options") {
        assert Contains(q, phrases[8]);
      } else if Contains(q, "what do you have") {
        assert Contains(q, phrases[3]);
      } else {
        assert Contains(q, phrases[4]);
      }
    }
  }

  lemma PhraseHoldsCore(j: int)
    requires 0 <= j < |VaguePhrases()|
    ensures CoreVague(VaguePhrases()[j])
  {
    var w := VaguePhrases()[j];
    if j == 0 || j == 1 {
      assert OccursAt(w, "options", 8);
    } else if j == 2 {
      assert OccursAt(w, "restaurants", 5);
    } else if j == 5 || j == 6 {
      assert OccursAt(w, "restaurants", 8);
    } else {
      assert OccursAt(w, w, 0);
    }
  }

  lemma CoreVagueTransitive(q: string, w: string)
    requires Contains(q, w) && CoreVague(w)
    ensures CoreVague(q)
  {
    if Contains(w, "restaurants") {
      ContainsTransitive(q, w, "restaurants");
    } else if Contains(w, "options") {
      ContainsTransitive(q, w, "options");
    } else if Contains(w, "what do you have") {
      ContainsTransitive(q, w, "what do you have");
    } else {
      ContainsTransitive(q, w, "what's available");
    }
  }

  /** Any specific word wins over every vague phrase. */
  lemma SpecificNeverVague(query: string)
    requires Specific(Lower(query))
    ensures !IsVague(query)
  {
  }

  /** "show me restaurants" is vague: it holds "restaurants", and every
      specific word has a letter it lacks. */
  lemma ShowMeRestaurantsIsVague()
    ensures IsVague("show me restaurants")
  {
    ShowMeRestaurantsLetters();
    VagueWithoutLetters("show me restaurants");
  }

  lemma ShowMeRestaurantsLetters()
    ensures var q := Lower("show me restaurants");
            && 'i' !in q && 'f' !in q && 'c' !in q && 'j' !in q && 'x' !in q
            && 'd' !in q && 'p' !in q && 'l' !in q && '$' !in q
            && Contains(q, "restaurants")
  {
    var q := "show me restaurants";
    assert Lower(q) == q;
    ShowMeRestaurantsAlphabet();
    assert OccursAt(q, "restaurants", 8);
  }

  lemma ShowMeRestaurantsAlphabet()
    ensures var q := "show me restaurants";
            forall k :: 0 <= k < |q| ==>
              q[k] in {'s', 'h', 'o', 'w', ' ', 'm', 'e', 'r', 't', 'a', 'u', 'n'}
  {
  }

  /** A query that holds "restaurants" and, once lowered, none of the letters
      i, f, c, j, x, d, p, l and `$`, is vague. */
  lemma VagueWithoutLetters(query: string)
    requires var q := Lower(query);
             && 'i' !in q && 'f' !in q && 'c' !in q && 'j' !in q && 'x' !in q
             && 'd' !in q && 'p' !in q && 'l' !in q && '$' !in q
             && Contains(q, "restaurants")
    ensures IsVague(query)
  {
    NoSpecificWord(Lower(query));
    VaguePhrasesReduce(Lower(query));
  }

  /** A query without the letters i, f, c, j, x, d, p, l and `$` holds no
      specific word. */
  lemma NoSpecificWord(q: string)
    requires 'i' !in q && 'f' !in q && 'c' !in q && 'j' !in q && 'x' !in q
    requires 'd' !in q && 'p' !in q && 'l' !in q && '$' !in q
    ensures !Specific(q)
  {
    var cs, ls, ws := CuisineWords(), LocationWords(), CriteriaWords();
    forall j | 0 <= j < |cs| ensures !Contains(q, cs[j]) {
      if j == 1 {
        assert cs[j][0] == 'f';
        AbsentChar(q, cs[j], 'f');
      } else if j == 3 {
        assert cs[j][0] == 'c';
        AbsentChar(q, cs[j], 'c');
      } else if j == 4 {
        assert cs[j][0] == 'j';
        AbsentChar(q, cs[j], 'j');
      } else if j == 6 {
        assert cs[j][2] == 'x';
        AbsentChar(q, cs[j], 'x');
      } else if j == 8 {
        assert cs[j][2] == 'd';
        AbsentChar(q, cs[j], 'd');
      } else {
        assert 'i' in cs[j];
        AbsentChar(q, cs[j], 'i');
      }
    }
    forall j | 0 <= j < |ls| ensures !Contains(q, ls[j]) {
      if j == 1 {
        assert ls[j][1] == 'p';
        AbsentChar(q, ls[j], 'p');
      } else if j == 5 {
        assert ls[j][5] == 'f';
        AbsentChar(q, ls[j], 'f');
      } else {
        assert 'i' in ls[j] || 'd' in ls[j];
        if 'i' in ls[j] {
          AbsentChar(q, ls[j], 'i');
        } else {
          AbsentChar(q, ls[j], 'd');
        }
      }
    }
    forall j | 0 <= j < |ws| ensures !Contains(q, ws[j]) {
      if j == 0 {
        assert ws[j][4] == 'c';
        AbsentChar(q, ws[j], 'c');
      } else if j == 1 {
        assert ws[j][0] == 'f';
        AbsentChar(q, ws[j], 'f');
      } else if j == 2 {
        assert ws[j][0] == 'l';
        AbsentChar(q, ws[j], 'l');
      } else if j == 4 {
        assert ws[j][0] == '$';
        AbsentChar(q, ws[j], '$');
      } else {
        assert ws[j][0] == 'p';
        AbsentChar(q, ws[j], 'p');
      }
    }
  }

  /** "find italian food downtown" is not vague. */
  lemma FindItalianDowntownIsSpecific()
    ensures !IsVague("find italian food downtown")
  {
    var q := Lower("find italian food downtown");
    assert q[..4] == "find";
    assert OccursAt(q, "find", 0);
    assert "find" in CriteriaWords();
  }

  /** `get_clarification_prompt`: the fixed opening and closing sentences
      around the four questions. */
  function ClarificationPrompt(): string
  {
    PromptAround("I'd be happy to help you find a restaurant! To give you the best recommendations, "
                 + "could you please tell me more about what you're looking for? For example:\n\n",
                 "The more details you provide, the better I can help you find the perfect restaurant!")
  }

  /** The prompt's questions, between an opening and a closing: they ask for
      the cuisine, the location, the price range and the number of diners. */
  function PromptAround(opening: string, closing: string): (p: string)
    ensures Contains(p, "cuisine") && Contains(p, "location")
    ensures Contains(p, "price range") && Contains(p, "How many people")
  {
    var cuisine := "- What type of " + "cuisine" + " are you interested in? (Italian, Chinese, Thai, etc.)\n";
    var location := "- Do you have a preferred " + "location" + "?\n";
    var price := "- What's your " + "price range" + "? ($ to $$$$)\n";
    var diners := "- " + "How many people" + " will be dining?\n\n";
    ContainsPart("- What type of ", "cuisine", " are you interested in? (Italian, Chinese, Thai, etc.)\n");
    ContainsPart("- Do you have a preferred ", "location", "?\n");
    ContainsPart("- What's your ", "price range", "? ($ to $$$$)\n");
    ContainsPart("- ", "How many people", " will be dining?\n\n");
    PromptPieces(opening, cuisine, location, price, diners, closing);
    opening + cuisine + location + price + diners + closing
  }

  /** Each question is found in the whole prompt. */
  lemma PromptPieces(opening: string, cuisine: string, location: string, price: string,
                     diners: string, closing: string)
    requires Contains(cuisine, "cuisine") && Contains(location, "location")
    requires Contains(price, "price range") && Contains(diners, "How many people")
    ensures var p := opening + cuisine + location + price + diners + closing;
            Contains(p, "cuisine") && Contains(p, "location")
            && Contains(p, "price range") && Contains(p, "How many people")
  {
    var a := opening + cuisine;
    ContainsIn(opening, cuisine, "cuisine");
    ContainsIn(a, location, "cuisine");
    ContainsIn(a, location, "location");
    var b := a + location + price;
    ContainsIn(a + location, price, "cuisine");
    ContainsIn(a + location, price, "location");
    ContainsIn(a + location, price, "price range");
    var c := b + diners;
    ContainsIn(b, diners, "cuisine");
    ContainsIn(b, diners, "location");
    ContainsIn(b, diners, "price range");
    ContainsIn(b, diners, "How many people");
    ContainsIn(c, closing, "cuisine");
    ContainsIn(c, closing, "location");
    ContainsIn(c, closing, "price range");
    ContainsIn(c, closing, "How many people");
  }
}
