/** `core/tools_registry.py`: the tool schemas offered to the chat model and
    the dispatcher that runs one tool call against the store. The dispatcher
    of `ConversationManager._execute_tool` is a near-copy that differs only
    in the reply to an unknown tool name; both are modelled here, told apart
    by a `Dispatcher` tag. */
module ToolsRegistry {
  import opened Python
  import opened Messages
  import opened Restaurants
  import opened Reservations
  import opened Store
  import opened Search
  import opened Availability
  import opened Booking
  import opened Formatters

  // ---------------------------------------------------------------- register_tools

  /** The four tool names. */
  const SearchName: string := "search_restaurants"
  const DetailsName: string := "get_restaurant_details"
  const AvailabilityName: string := "check_availability"
  const BookingName: string := "make_reservation"

  /** One entry of a tool's `"properties"`: its name, JSON type and
      description. */
  datatype Param = Param(name: string, kind: string, description: string)

  /** One `{"type": "function", "function": {...}}` definition. */
  datatype ToolDef = ToolDef(name: string, description: string, params: seq<Param>, required: seq<string>)

  /** `register_tools()`: the four tool definitions, in order. */
  function RegisteredTools(): seq<ToolDef>
  {
    [ ToolDef(SearchName, "Search for restaurants based on criteria",
              [ Param("cuisine", "string", "Type of cuisine (e.g., Italian, Japanese)"),
                Param("location", "string", "Restaurant location"),
                Param("price_range", "integer", "Maximum price range (1-4)"),
                Param("party_size", "integer", "Size of the dining party") ],
              []),
      ToolDef(DetailsName, "Get detailed information about a restaurant",
              [ Param("restaurant_id", "string", "ID of the restaurant") ],
              ["restaurant_id"]),
      ToolDef(AvailabilityName, "Check available time slots for a restaurant on a specific date",
              [ Param("restaurant_id", "string", "ID of the restaurant"),
                Param("date", "string", "Date in YYYY-MM-DD format"),
                Param("time", "string", "Preferred time in HH:MM format"),
                Param("party_size", "integer", "Size of the party") ],
              ["restaurant_id", "date"]),
      ToolDef(BookingName, "Make a restaurant reservation",
              [ Param("restaurant_id", "string", "ID of the restaurant"),
                Param("customer_name", "string", "Name of the customer"),
                Param("date", "string", "Date in YYYY-MM-DD format"),
                Param("time", "string", "Time in HH:MM format"),
                Param("party_size", "integer", "Size of the party"),
                Param("email", "string", "Customer email address"),
                Param("phone", "string", "Customer phone number") ],
              ["restaurant_id", "customer_name", "date", "time", "party_size"]) ]
  }

  /** The names the dispatch chain has a branch for. */
  predicate Dispatched(name: string)
  {
    name == SearchName || name == DetailsName
    || name == AvailabilityName || name == BookingName
  }

  /** The four tools come in this order and with these required arguments. */
  lemma RegisteredToolsShape()
    ensures |RegisteredTools()| == 4
    ensures RegisteredTools()[0].name == SearchName && RegisteredTools()[0].required == []
    ensures RegisteredTools()[1].name == DetailsName
            && RegisteredTools()[1].required == ["restaurant_id"]
    ensures RegisteredTools()[2].name == AvailabilityName
            && RegisteredTools()[2].required == ["restaurant_id", "date"]
    ensures RegisteredTools()[3].name == BookingName
            && RegisteredTools()[3].required == ["restaurant_id", "customer_name", "date", "time", "party_size"]
  {
  }

  /** Every required argument is one of the tool's declared parameters. */
  lemma RequiredAreParams(k: int, q: string)
    requires 0 <= k < |RegisteredTools()| && q in RegisteredTools()[k].required
    ensures exists j :: 0 <= j < |RegisteredTools()[k].params| && RegisteredTools()[k].params[j].name == q
  {
    var t := RegisteredTools()[k];
    if k == 1 || (k >= 2 && q == "restaurant_id") {
      assert t.params[0].name == q;
    } else if k == 2 {
      assert t.params[1].name == q;
    } else if q == "customer_name" {
      assert t.params[1].name == q;
    } else if q == "date" {
      assert t.params[2].name == q;
    } else if q == "time" {
      assert t.params[3].name == q;
    } else {
      assert t.params[4].name == q;
    }
  }

  /** The dispatcher has a branch for exactly the registered tools. */
  lemma DispatchedExactlyRegistered(name: string)
    ensures Dispatched(name) <==> exists k :: 0 <= k < |RegisteredTools()| && RegisteredTools()[k].name == name
  {
    var ts := RegisteredTools();
    if Dispatched(name) {
      var k := if name == SearchName then 0
               else if name == DetailsName then 1
               else if name == AvailabilityName then 2
               else 3;
      assert ts[k].name == name;
    }
  }

  // ---------------------------------------------------------------- execute_tool_call

  /** Which of the two dispatchers: `execute_tool_call` of the registry or
      `_execute_tool` of the conversation manager. */
  datatype Dispatcher = Registry | Manager

  /** What the world outside the store decides during one call: the clock
      reading used for the reservation id, the `created_at` text, whether the
      file write succeeds, and `str()` of a reservation object (which shows
      its memory address). */
  datatype Env = Env(stamp: string, now: string, writeOk: bool, objectText: string)

  /** The reply to a name without a branch. */
  function UnknownToolText(d: Dispatcher, name: string): string
  {
    match d
    case Registry => "I don't know how to execute the tool '" + name + "'"
    case Manager => "Unknown tool: " + name
  }

  /** `f"Error executing tool: {str(e)}"`, the exception given by its class. */
  function ErrorText(e: Exc): string
  {
    "Error executing tool: " + ExcName(e)
  }

  function ExcName(e: Exc): string
  {
    match e
    case TypeError => "TypeError"
    case AttributeError => "AttributeError"
    case ValueError => "ValueError"
    case KeyError => "KeyError"
    case IndexError => "IndexError"
    case JsonDecodeError => "JSONDecodeError"
  }

  /** `f"Sorry, I couldn't make the reservation: {result}"`. */
  function SorryText(result: string): string
  {
    "Sorry, I couldn't make the reservation: " + result
  }

  /** `arguments.get(...)` needs the decoded arguments to be an object. */
  function Fields(args: Json): Outcome<map<string, Json>>
  {
    if args.JObj? then Returned(args.fields) else Raised(AttributeError)
  }

  function SearchQuery(f: map<string, Json>): Query
  {
    Query(Get(f, "cuisine"), Get(f, "location"), Get(f, "price_range"), Get(f, "party_size"))
  }

  /** The `search_restaurants` branch: the search with its default limit of
      five, then the list text. */
  function SearchReply(db: Db, args: Json): Outcome<string>
  {
    match Fields(args)
    case Raised(e) => Raised(e)
    case Returned(f) =>
      match SearchFrom(db.restaurants, SearchQuery(f), 5)
      case Raised(e) => Raised(e)
      case Returned(rs) => Returned(RestaurantListText(rs))
  }

  /** The `get_restaurant_details` branch: lookup by id, then the page. */
  function DetailsReply(db: Db, args: Json): Outcome<string>
  {
    match Fields(args)
    case Raised(e) => Raised(e)
    case Returned(f) => RestaurantDetails(RestaurantById(db.restaurants, Get(f, "restaurant_id")))
  }

  /** The `check_availability` branch: the slots, then their text under the
      date as `str` shows it. */
  function AvailabilityReply(db: Db, args: Json): Outcome<string>
  {
    match Fields(args)
    case Raised(e) => Raised(e)
    case Returned(f) =>
      match AvailableSlots(db, Get(f, "restaurant_id"), Get(f, "date"), Get(f, "time"), Get(f, "party_size"))
      case Raised(e) => Raised(e)
      case Returned(ts) => AvailableTimesText(Str(Get(f, "date")), ts)
  }

  /** The `make_reservation` branch, with the store after the booking: a
      refusal or an unsaved reservation gives the apology (an unsaved one is
      shown as the object's text); a saved one gives the confirmation with
      the restaurant looked up again by the same id, and `restaurant.name`
      raises AttributeError if that lookup finds nothing. */
  function BookingReply(db: Db, args: Json, env: Env): (Outcome<string>, Db)
  {
    match Fields(args)
    case Raised(e) => (Raised(e), db)
    case Returned(f) =>
      var rid := Get(f, "restaurant_id");
      var made := Make(db, rid, Get(f, "customer_name"), Get(f, "date"), Get(f, "time"), Get(f, "party_size"),
                       Get(f, "email"), Get(f, "phone"), env.stamp, env.now, env.writeOk);
      (Answer(made.0, RestaurantById(made.1.restaurants, rid), env.objectText), made.1)
  }

  function Answer(o: Outcome<Booked>, restaurant: Option<Restaurant>, objectText: string): Outcome<string>
  {
    match o
    case Raised(e) => Raised(e)
    case Returned(b) =>
      match b
      case Refused(reason) => Returned(SorryText(Booking.Message(reason)))
      case Made(saved, r) =>
        if !saved then Returned(SorryText(objectText))
        else if restaurant.None? then Raised(AttributeError)
        else Returned(Confirmation(r, restaurant.value))
  }

  /** The body of the `try`: decode the arguments, then the branch for the
      name; a name without a branch gets the unknown-tool reply. */
  function Run(d: Dispatcher, db: Db, call: ToolCall, env: Env): (Outcome<string>, Db)
  {
    match call.arguments
    case Raised(e) => (Raised(e), db)
    case Returned(args) =>
      if call.name == SearchName then (SearchReply(db, args), db)
      else if call.name == DetailsName then (DetailsReply(db, args), db)
      else if call.name == AvailabilityName then (AvailabilityReply(db, args), db)
      else if call.name == BookingName then BookingReply(db, args, env)
      else (Returned(UnknownToolText(d, call.name)), db)
  }

  /** `execute_tool_call(tool_call, data_store)`: every exception is caught
      and turned into the error reply, so a call always yields a text. */
  function Execute(d: Dispatcher, db: Db, call: ToolCall, env: Env): (string, Db)
  {
    var (o, after) := Run(d, db, call, env);
    (Reply(o), after)
  }

  function Reply(o: Outcome<string>): string
  {
    match o
    case Raised(e) => ErrorText(e)
    case Returned(s) => s
  }

  // ---------------------------------------------------------------- the methods

  /** `execute_tool_call` on the store. */
  method ExecuteToolCall(d: Dispatcher, store: DataStore, call: ToolCall, env: Env) returns (reply: string)
    modifies store
    ensures reply == Execute(d, old(store.State()), call, env).0
    ensures store.State() == Execute(d, old(store.State()), call, env).1
  {
    if call.arguments.Raised? {
      return ErrorText(call.arguments.exc);
    }
    var args := call.arguments.value;
    var o: Outcome<string>;
    if call.name == SearchName {
      o := SearchTool(store, args);
    } else if call.name == DetailsName {
      o := DetailsTool(store, args);
    } else if call.name == AvailabilityName {
      o := AvailabilityTool(store, args);
    } else if call.name == BookingName {
      o := BookingTool(store, args, env);
    } else {
      o := Returned(UnknownToolText(d, call.name));
    }
    reply := if o.Raised? then ErrorText(o.exc) else o.value;
  }

  method SearchTool(store: DataStore, args: Json) returns (o: Outcome<string>)
    ensures o == SearchReply(store.State(), args)
  {
    if !args.JObj? {
      return Raised(AttributeError);
    }
    var found := SearchRestaurants(store, SearchQuery(args.fields), 5);
    if found.Raised? {
      return Raised(found.exc);
    }
    var text := FormatRestaurantList(found.value);
    o := Returned(text);
  }

  method DetailsTool(store: DataStore, args: Json) returns (o: Outcome<string>)
    ensures o == DetailsReply(store.State(), args)
  {
    if !args.JObj? {
      return Raised(AttributeError);
    }
    var restaurant := GetRestaurantDetails(store, Get(args.fields, "restaurant_id"));
    o := RestaurantDetails(restaurant);
  }

  method AvailabilityTool(store: DataStore, args: Json) returns (o: Outcome<string>)
    ensures o == AvailabilityReply(store.State(), args)
  {
    if !args.JObj? {
      return Raised(AttributeError);
    }
    var f := args.fields;
    var times := CheckAvailability(store, Get(f, "restaurant_id"), Get(f, "date"), Get(f, "time"), Get(f, "party_size"));
    if times.Raised? {
      return Raised(times.exc);
    }
    o := FormatAvailableTimes(Str(Get(f, "date")), times.value);
  }

  method BookingTool(store: DataStore, args: Json, env: Env) returns (o: Outcome<string>)
    modifies store
    ensures o == BookingReply(old(store.State()), args, env).0
    ensures store.State() == BookingReply(old(store.State()), args, env).1
  {
    if !args.JObj? {
      return Raised(AttributeError);
    }
    var f := args.fields;
    var rid := Get(f, "restaurant_id");
    var made := MakeReservation(store, rid, Get(f, "customer_name"), Get(f, "date"), Get(f, "time"),
                                Get(f, "party_size"), Get(f, "email"), Get(f, "phone"), env.stamp, env.now, env.writeOk);
    var restaurant: Option<Restaurant> := None;
    if made.Returned? && made.value.Made? && made.value.saved {
      restaurant := GetRestaurantDetails(store, rid);
    }
    o := Answer(made, restaurant, env.objectText);
  }

  // ---------------------------------------------------------------- properties

  /** Arguments that are not JSON give the error reply whatever the name,
      and nothing is stored. */
  lemma UndecodableArguments(d: Dispatcher, db: Db, call: ToolCall, env: Env)
    requires call.arguments.Raised?
    ensures Execute(d, db, call, env) == (ErrorText(call.arguments.exc), db)
  {
  }

  /** A name without a branch gets the dispatcher's unknown-tool reply and
      stores nothing. */
  lemma UnknownToolReply(d: Dispatcher, db: Db, call: ToolCall, env: Env)
    requires call.arguments.Returned? && !Dispatched(call.name)
    ensures Execute(d, db, call, env) == (UnknownToolText(d, call.name), db)
  {
  }

  /** Only `make_reservation` can change the store. */
  lemma OnlyBookingWrites(d: Dispatcher, db: Db, call: ToolCall, env: Env)
    requires call.name != BookingName
    ensures Execute(d, db, call, env).1 == db
  {
  }

  /** The two dispatchers differ only in the reply to an unknown name. */
  lemma DispatchersAgree(db: Db, call: ToolCall, env: Env)
    ensures Execute(Registry, db, call, env).1 == Execute(Manager, db, call, env).1
    ensures call.arguments.Raised? || Dispatched(call.name) ==>
              Execute(Registry, db, call, env) == Execute(Manager, db, call, env)
    ensures call.arguments.Returned? && !Dispatched(call.name) ==>
              Execute(Registry, db, call, env).0 != Execute(Manager, db, call, env).0
  {
    if call.arguments.Returned? && !Dispatched(call.name) {
      var r := UnknownToolText(Registry, call.name);
      assert r[0] == 'I';
      assert UnknownToolText(Manager, call.name)[0] == 'U';
    }
  }

  /** A search lists at most five restaurants, each from the catalogue and
      satisfying every filter given, first matches first. */
  lemma SearchReplyLists(d: Dispatcher, db: Db, call: ToolCall, env: Env)
    requires call.name == SearchName && call.arguments.Returned? && call.arguments.value.JObj?
    requires SearchFrom(db.restaurants, SearchQuery(call.arguments.value.fields), 5).Returned?
    ensures var q := SearchQuery(call.arguments.value.fields);
            var rs := SearchFrom(db.restaurants, q, 5).value;
            && Execute(d, db, call, env) == (RestaurantListText(rs), db)
            && |rs| <= 5 && |rs| <= |Matching(db.restaurants, q)| && rs == Matching(db.restaurants, q)[..|rs|]
            && forall r :: r in rs ==> r in db.restaurants && Satisfies(r, q)
  {
    var q := SearchQuery(call.arguments.value.fields);
    SearchIsPrefix(db.restaurants, q, 5);
    SearchResultsSatisfy(db.restaurants, q, 5);
  }

  /** A refused booking gives the apology with the refusal's message and
      stores nothing. */
  lemma BookingFailureReply(d: Dispatcher, db: Db, call: ToolCall, env: Env, reason: Refusal)
    requires call.name == BookingName && call.arguments.Returned? && call.arguments.value.JObj?
    requires var f := call.arguments.value.fields;
             Make(db, Get(f, "restaurant_id"), Get(f, "customer_name"), Get(f, "date"), Get(f, "time"),
                  Get(f, "party_size"), Get(f, "email"), Get(f, "phone"), env.stamp, env.now, env.writeOk).0
             == Returned(Refused(reason))
    ensures Execute(d, db, call, env) == (SorryText(Booking.Message(reason)), db)
  {
    var f := call.arguments.value.fields;
    MakeRefusalChangesNothing(db, Get(f, "restaurant_id"), Get(f, "customer_name"), Get(f, "date"), Get(f, "time"),
                              Get(f, "party_size"), Get(f, "email"), Get(f, "phone"), env.stamp, env.now, env.writeOk);
  }

  /** A booking whose write fails is reported with the apology around `str()`
      of the reservation object, and the store is unchanged. */
  lemma BookingUnsavedReply(d: Dispatcher, db: Db, call: ToolCall, env: Env, r: Reservation)
    requires call.name == BookingName && call.arguments.Returned? && call.arguments.value.JObj?
    requires var f := call.arguments.value.fields;
             Make(db, Get(f, "restaurant_id"), Get(f, "customer_name"), Get(f, "date"), Get(f, "time"),
                  Get(f, "party_size"), Get(f, "email"), Get(f, "phone"), env.stamp, env.now, env.writeOk).0
             == Returned(Made(false, r))
    ensures Execute(d, db, call, env) == (SorryText(env.objectText), db)
  {
    var f := call.arguments.value.fields;
    RunsBooking(d, db, call, env);
    MakeRefusalChangesNothing(db, Get(f, "restaurant_id"), Get(f, "customer_name"), Get(f, "date"), Get(f, "time"),
                              Get(f, "party_size"), Get(f, "email"), Get(f, "phone"), env.stamp, env.now, env.writeOk);
  }

  /** A saved booking is confirmed with the restaurant it was made at, which
      the lookup always finds again: the confirmation never raises, and it
      quotes the new reservation's id. */
  lemma BookingSuccessReply(d: Dispatcher, db: Db, call: ToolCall, env: Env, r: Reservation)
    requires call.name == BookingName && call.arguments.Returned? && call.arguments.value.JObj?
    requires var f := call.arguments.value.fields;
             Make(db, Get(f, "restaurant_id"), Get(f, "customer_name"), Get(f, "date"), Get(f, "time"),
                  Get(f, "party_size"), Get(f, "email"), Get(f, "phone"), env.stamp, env.now, env.writeOk).0
             == Returned(Made(true, r))
    ensures var rid, reply := Get(call.arguments.value.fields, "restaurant_id"), Execute(d, db, call, env).0;
            && RestaurantById(db.restaurants, rid).Some?
            && reply == Confirmation(r, RestaurantById(db.restaurants, rid).value)
            && Contains(reply, r.id)
  {
    var args := call.arguments.value;
    var x := RestaurantById(db.restaurants, Get(args.fields, "restaurant_id"));
    RunsBooking(d, db, call, env);
    BookingConfirmed(db, args, env, r);
    var c := Confirmation(r, x.value);
    assert Answer(Returned(Made(true, r)), x, env.objectText) == Returned(c);
    assert Execute(d, db, call, env).0 == Reply(Returned(c));
    ConfirmationQuotes(r, x.value);
  }

  /** A decoded `make_reservation` call runs the booking branch. */
  lemma RunsBooking(d: Dispatcher, db: Db, call: ToolCall, env: Env)
    requires call.name == BookingName && call.arguments.Returned?
    ensures Execute(d, db, call, env) == (Reply(BookingReply(db, call.arguments.value, env).0),
                                          BookingReply(db, call.arguments.value, env).1)
  {
    assert |call.name| == 16;
  }

  lemma BookingConfirmed(db: Db, args: Json, env: Env, r: Reservation)
    requires args.JObj?
    requires var f := args.fields;
             Make(db, Get(f, "restaurant_id"), Get(f, "customer_name"), Get(f, "date"), Get(f, "time"),
                  Get(f, "party_size"), Get(f, "email"), Get(f, "phone"), env.stamp, env.now, env.writeOk).0
             == Returned(Made(true, r))
    ensures var rid := Get(args.fields, "restaurant_id");
            && RestaurantById(db.restaurants, rid).Some?
            && BookingReply(db, args, env).0 == Answer(Returned(Made(true, r)), RestaurantById(db.restaurants, rid), env.objectText)
  {
    var f := args.fields;
    MadeAtKnownRestaurant(db, Get(f, "restaurant_id"), Get(f, "customer_name"), Get(f, "date"), Get(f, "time"),
                          Get(f, "party_size"), Get(f, "email"), Get(f, "phone"), env.stamp, env.now, env.writeOk);
  }

  /** A reservation is only made at a restaurant the store holds, and making
      it leaves the restaurants as they were. */
  lemma MadeAtKnownRestaurant(db: Db, rid: Json, name: Json, date: Json, time: Json, party: Json, email: Json,
                              phone: Json, stamp: string, now: string, writeOk: bool)
    ensures var (o, after) := Make(db, rid, name, date, time, party, email, phone, stamp, now, writeOk);
            o.Returned? && o.value.Made? ==>
              RestaurantById(db.restaurants, rid).Some? && after.restaurants == db.restaurants
  {
    MakeChecksInOrder(db, rid, name, date, time, party, email, phone, stamp, now, writeOk);
    MakeSucceeds(db, rid, name, date, time, party, email, phone, stamp, now, writeOk);
  }

  /** A booking of a known restaurant without a party size reaches
      `None > capacity`; the TypeError becomes the error reply and nothing is
      stored. */
  lemma MissingPartySizeIsError(d: Dispatcher, db: Db, call: ToolCall, env: Env)
    requires call.name == BookingName && call.arguments.Returned? && call.arguments.value.JObj?
    requires "party_size" !in call.arguments.value.fields
    requires RestaurantById(db.restaurants, Get(call.arguments.value.fields, "restaurant_id")).Some?
    ensures Execute(d, db, call, env) == (ErrorText(TypeError), db)
  {
    var f := call.arguments.value.fields;
    RunsBooking(d, db, call, env);
    MakeChecksInOrder(db, Get(f, "restaurant_id"), Get(f, "customer_name"), Get(f, "date"), Get(f, "time"),
                      Get(f, "party_size"), Get(f, "email"), Get(f, "phone"), env.stamp, env.now, env.writeOk);
  }

  /** No tool call, whichever the dispatcher, creates a double booking. */
  lemma ExecuteKeepsNoDoubleBooking(d: Dispatcher, db: Db, call: ToolCall, env: Env)
    requires NoDoubleBooking(db.reservations)
    ensures NoDoubleBooking(Execute(d, db, call, env).1.reservations)
  {
    if call.name == BookingName && call.arguments.Returned? && call.arguments.value.JObj? {
      var f := call.arguments.value.fields;
      MakeKeepsNoDoubleBooking(db, Get(f, "restaurant_id"), Get(f, "customer_name"), Get(f, "date"), Get(f, "time"),
                               Get(f, "party_size"), Get(f, "email"), Get(f, "phone"), env.stamp, env.now, env.writeOk);
    }
  }
}
