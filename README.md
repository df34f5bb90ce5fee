# FoodieSpot reservations — a Dafny model of the reservation domain

FoodieSpot is a chat assistant for booking restaurant tables. A language
model reads the user's message and may call four tools:

- `search_restaurants`
- `get_restaurant_details`
- `check_availability`
- `make_reservation`

The program runs each call against a data store of restaurants and
reservations, formats the result as text, and hands it back to the model for
the final answer. This project models that core in Dafny:

- the `Restaurant` and `Reservation` records and their dictionary round trips;
- the data store (`DataStore`) with its upserts and look-ups;
- the availability engine: half-hourly slots between opening and closing, minus the confirmed bookings, narrowed to two hours around a requested time, and the ranked alternative times;
- booking, validation, update and cancellation of reservations;
- filtered search and score-ranked recommendation;
- the text formatters;
- the two input validators (vague queries, ungrounded search arguments);
- the tool dispatcher and its registered schema;
- the conversation manager's turn: the opening message list, the loop over tool calls and the two chat calls.

The model follows the shape of the code. The data store and the
conversation manager are classes whose methods change their fields. Loops
are `while` loops, each proved against a function that specifies it. The
records, the validators and the text are datatypes and functions. Python's
dynamic values at the tool boundary are a `Json` datatype, and exceptions
are an `Outcome` that is either returned or raised. The central invariant
is that no two confirmed reservations hold the same restaurant, date and
time (`NoDoubleBooking`). The model proves that booking, updating,
cancelling, any tool call and a whole conversation turn keep it. For
updating, this holds only when the status is left alone (see Findings).

Modules, one file each:

| module | file |
|---|---|
| `Python` | python.dfy |
| `Messages` | messages.dfy |
| `Clock` | clock.dfy |
| `Restaurants` | restaurant.dfy |
| `Reservations` | reservation.dfy |
| `Store` | data_store.dfy |
| `Sorting` | sorting.dfy |
| `Search` | search.dfy |
| `Availability` | availability.dfy |
| `Booking` | booking.dfy |
| `Formatters` | formatters.dfy |
| `QueryValidation` | query_validator.dfy |
| `ToolValidation` | tool_validator.dfy |
| `ToolsRegistry` | tools_registry.dfy |
| `Conversation` | conversation.dfy |

The `Python` module holds the parts of Python the code relies on: string
slices, `lower`, `split`, `count`, `int()` and `str()` of integers, and
string ordering. The `Clock` module holds `strptime("%Y-%m-%d")`,
`weekday()`, the parsing of `"H:M"` text and the `"HH:MM"` slot labels.
`Messages` holds the chat messages and tool calls.

The model follows the code where the design's intent differs from it.
That intent is that an update does not count the reservation's own slot
as booked; nothing in the code's own comments or docstrings states it. The
code counts the slot, so changing only the party size of a
confirmed reservation is always refused (`Booking.PartySizeOnlyUpdateRefused`).

## Model

| member | source | states |
|---|---|---|
| Restaurants.NewRestaurant | models/restaurant.py:4-17 | the record carries the given fields; missing or empty hours become weekday 11:00–22:00 and weekend 10:00–23:00, so a built restaurant always has hours |
| Restaurants.FromDictToDict | models/restaurant.py:19-46 | `from_dict(to_dict(r))` gives back all nine fields of a built restaurant |
| Restaurants.HoursRoundTrip | models/restaurant.py:30 | a non-empty hours table is stored as a truthy object and read back unchanged |
| Restaurants.FromDictWithoutHours | models/restaurant.py:45 | a stored restaurant without "hours" comes back with the default weekday and weekend hours |
| Restaurants.IsOpenAt | models/restaurant.py:48-51 | raises KeyError exactly when there are no weekday hours; otherwise the hours of the day type, or the weekday hours for an unknown day type, compared with the time as strings, both ends inclusive |
| Restaurants.IsOpenAtInclusive | models/restaurant.py:51 | on zero-padded "HH:MM" text the string comparison is the inclusive comparison of minutes of the day |
| Restaurants.IsOpenAtUnpaddedOpening | models/restaurant.py:51 | as written, a weekend opening "8:00" reports the restaurant closed at "09:00" |
| Restaurants.IsOpenAtByClock | models/restaurant.py:48-51 | corrected check on minutes of the day; raises KeyError without weekday hours, as the original does |
| Restaurants.IsOpenAtByClockAgrees | models/restaurant.py:51 | on zero-padded text the corrected check answers exactly as the original |
| Restaurants.IsOpenAtByClockUnpaddedOpening | models/restaurant.py:51 | the corrected check reports the "8:00" restaurant open at "09:00" |
| Reservations.NewReservation | models/reservation.py:6-17 | every field is the given one and the creation time is the clock reading |
| Reservations.NewReservationDefaults | models/reservation.py:7 | built without status, email or phone, a reservation is confirmed with no email or phone |
| Reservations.FromDict | models/reservation.py:34-49 | `from_dict` succeeds exactly on a dictionary holding the required keys, each with a value of the record field's type (a missing key is Python's KeyError; the type restriction is the model's, see Left out) |
| Reservations.FromDictToDict | models/reservation.py:19-49 | `from_dict(to_dict(r))` gives back every field, the creation time included, whatever the clock reads |
| Reservations.FromDictDefaults | models/reservation.py:44-48 | missing status, email, phone and creation time become "confirmed", None, None and the current clock |
| Reservations.FromDictKeepsCreatedAt | models/reservation.py:48 | a stored creation time always wins over the clock |
| Reservations.Cancel | models/reservation.py:51-54 | the status becomes "cancelled" and every other field is unchanged |
| Reservations.CancelIdempotent | models/reservation.py:51-54 | cancelling twice is cancelling once |
| Store.IndexOf | data/data_store.py:58-61 | the position found is the first entry with that key, or the end when there is none |
| Store.Find | data/data_store.py:45-51 | the result has the key and is stored; None exactly when no entry has the key |
| Store.UpsertExisting | data/data_store.py:57-61 | an existing key is replaced in place at its first position: same length, every other entry untouched |
| Store.UpsertNew | data/data_store.py:62-63 | a new key is appended at the end |
| Store.FindAfterUpsert | data/data_store.py:53-63 | after an upsert the key finds the entry just written |
| Store.FindOtherAfterUpsert | data/data_store.py:53-63 | an upsert leaves the look-up of every other key unchanged |
| Store.RestaurantById | data/data_store.py:45-51 | the restaurant found is stored and has exactly that id; an id that is not text finds nothing |
| Store.ConfirmedOnMembers | data/data_store.py:88-94 | a reservation is listed exactly when it is stored, for that restaurant and date, and confirmed |
| Store.ConfirmedOnSubsequence | data/data_store.py:91-94 | the listing keeps stored order and splits over concatenation |
| Store.CustomerReservations | data/data_store.py:131-141 | the result is never longer than the stored list |
| Store.CustomerReservationsMembers | data/data_store.py:136-139 | names match whatever their letter case; the email filters only when it is given |
| Store.CustomerReservationsRaises | data/data_store.py:137 | any stored name that is not text raises AttributeError |
| Store.SavedReservationFound | data/data_store.py:80-86 | after a successful write, `get_reservation(r.id)` returns `r` |
| Store.DataStore.constructor | data/data_store.py:10-24 | a fresh store holds no restaurants and no reservations |
| Store.DataStore.GetRestaurant | data/data_store.py:45-51 | the loop with early return finds what `Find` specifies |
| Store.DataStore.AddRestaurant | data/data_store.py:53-67 | the restaurants become the upsert of the old list; reservations unchanged |
| Store.DataStore.AddRestaurants | data/data_store.py:69-72 | the restaurants become the upserts of each given one, in order |
| Store.DataStore.GetReservation | data/data_store.py:80-86 | the loop with early return finds what `Find` specifies |
| Store.DataStore.GetReservationsByDate | data/data_store.py:88-94 | the result is the confirmed-on filter of the stored list |
| Store.DataStore.AddReservation | data/data_store.py:96-129 | returns the write's success; on success the list is the upsert, on failure it is unchanged |
| Store.DataStore.GetCustomerReservations | data/data_store.py:131-141 | the loop computes the customer filter, raising as it does |
| Clock.ParseDate | tools/availability.py:32 | a parsed date has a year from 1, a month in 1..12 and a day that exists in that month; that every such date's text parses back to it is `ParseDateText` |
| Clock.Weekday | tools/availability.py:33 | the day of the week lies in 0..6; that it is the calendar's day, Monday first, is `WeekdayFollowsCalendar` |
| Clock.ParseDateText | tools/availability.py:32 | every valid date of a year from 1 to 9999 parses back from its zero-padded "YYYY-MM-DD" text |
| Clock.WeekdayFollowsCalendar | tools/availability.py:33 | 1 January of year 1 is weekday 0, a Monday, and each next calendar day is the next day of the week modulo 7 |
| Clock.June4th2025IsWednesday | tools/availability.py:32-33 | "2025-06-04" parses and is a Wednesday, so it takes the weekday hours |
| Clock.SlotLabelRoundTrip | tools/availability.py:53 | a slot label parses back to the hour and minute it was written from |
| Clock.SlotLabelInjective | tools/availability.py:53-56 | two slot labels are equal only for the same hour and minute |
| Clock.SlotLabelColon | tools/availability.py:53 | a slot label has at least five characters and never its colon second |
| Clock.PaddedOrder | models/restaurant.py:51 | on "HH:MM" text, string order is the order of minutes of the day |
| Clock.PaddedParses | tools/availability.py:43-44 | "HH:MM" text parses to the hour and minute its digits spell |
| Sorting.SortByKey | tools/search.py:94 | the sort returns a permutation of its input |
| Sorting.SortByKeySorted | tools/search.py:94 | the result is ordered by key |
| Sorting.SortByKeyStable | tools/search.py:94 | for every key, the elements carrying it keep their order |
| Sorting.SortByKeyTies | tools/availability.py:132 | on a list ascending under a second key, equal sort keys are broken by that second key |
| Sorting.SortText | utils/formatters.py:56 | `sorted` of strings returns a permutation of its input |
| Sorting.SortTextSorted | utils/formatters.py:56 | the result is in Python's string order |
| Availability.CheckAvailability | tools/availability.py:3-84 | the method's answer on the store is `AvailableSlots` of its state |
| Availability.SlotsFor | tools/availability.py:22-84 | the steps after the look-up compute the open slots |
| Availability.GenerateSlots | tools/availability.py:47-63 | the `while` loop returns the labels of the visited slots that are not booked |
| Availability.WithinTwoHours | tools/availability.py:72-80 | the filter loop keeps exactly the slots at most 120 minutes from the target |
| Availability.NoSlotsCases | tools/availability.py:18-40 | an unknown restaurant, a truthy party above capacity, a date that does not parse, or no hours for the day type each give an empty list |
| Availability.CadenceBounds | tools/availability.py:51-63 | every visited slot has a minute in 0..59, is at or after opening and passes the loop guard |
| Availability.CadenceAscending | tools/availability.py:51-63 | with an opening minute below 60 the slots strictly ascend in minutes of the day, across the reset of the minute to 0 |
| Availability.CadenceHalfHours | tools/availability.py:59-63 | from an opening on the hour or half hour, slots are exactly 30 minutes apart |
| Availability.UnnormalisedOpeningMinute | tools/availability.py:60-63 | an opening minute of 60 or more is not normalised, so the second slot can come before the first |
| Availability.KeepAscending | tools/availability.py:56-57 | dropping slots keeps the rest ascending |
| Availability.AvailabilityResult | tools/availability.py:17-84 | when it returns, the answer is empty or the free slots narrowed to the requested time |
| Availability.UnparsedTimeIgnored | tools/availability.py:81-82 | a time that does not parse filters nothing |
| Availability.NoTimeAllFreeSlots | tools/availability.py:47-63 | without a time, the slots are exactly the visited slots whose label is not booked |
| Availability.SlotsWithinHours | tools/availability.py:51 | the slots ascend strictly, lie at or after opening and before closing, and none is booked |
| Availability.ConfirmedBookingBlocks | tools/availability.py:27-28 | a confirmed reservation's time for that restaurant and date is never listed |
| Availability.GeneratedUnbooked | tools/availability.py:56 | every listed slot passed the booked-time filter |
| Availability.SlotsNearRequestedTime | tools/availability.py:66-80 | when the time parses, every slot is within 120 minutes of it, both ends included |
| Availability.ListedSlotsPadded | tools/availability.py:53 | every listed slot is zero-padded "HH:MM" text |
| Availability.Ranked | tools/availability.py:119-136 | the alternatives are a reordering of the remaining slots; given order when the time does not parse |
| Availability.SuggestBounded | tools/availability.py:86-138 | at most `n` suggestions, drawn from the available slots without repeats |
| Availability.SuggestDistinct | tools/availability.py:86-138 | no slot is suggested twice |
| Availability.PreferredTimeFirst | tools/availability.py:111-114 | an available requested time is suggested first |
| Availability.SuggestRanked | tools/availability.py:121-133 | after the requested time, suggestions go by distance from it, ties by time of day |
| Availability.SuggestTail | tools/availability.py:111-133 | after the requested time come alternatives drawn from the other available slots, without reusing the requested one, as many as `[:remaining]` keeps, negative counts included |
| Availability.SuggestUnparsedTime | tools/availability.py:134-136 | an unparseable time gives the first `n` available slots |
| Booking.Save | tools/reservation.py:74 | a write keeps the restaurants; success stores `r` under its id; failure changes nothing |
| Booking.UpsertKeepsNoDoubleBooking | data/data_store.py:107-114 | writing a reservation whose slot no other entry holds keeps the invariant |
| Booking.Validate | tools/reservation.py:191-232 | valid exactly for acceptable arguments; an unknown restaurant is the first refusal |
| Booking.CheckFields | tools/reservation.py:210-232 | valid exactly when the date parses, the time is two integers in range, and the party size is an integer in 1..capacity |
| Booking.HourCheckedFirst | tools/reservation.py:219 | an hour out of range is reported even when the minutes are not a number |
| Booking.ValidateReservationData | tools/reservation.py:191-232 | the method on the store answers as `Validate` |
| Booking.ReservationId | tools/reservation.py:56 | the id is "res_" followed by the clock stamp |
| Booking.MakeReservation | tools/reservation.py:6-88 | reply and new store are those `Make` specifies |
| Booking.BookSlot | tools/reservation.py:35-88 | the booking from validation on, as `Make` specifies |
| Booking.ReserveSlot | tools/reservation.py:43-88 | the slot check, record and write, as `Make` specifies |
| Booking.MakeChecksInOrder | tools/reservation.py:26-32 | an unknown restaurant is refused first, a missing party size raises TypeError, and an oversized party is refused next, none touching the store |
| Booking.MakeSucceeds | tools/reservation.py:35-88 | a booking is made exactly when the arguments are acceptable and the time is a listed slot; it is confirmed, has the id `res_<stamp>` and exactly the given details, and is stored when the write succeeds |
| Booking.MakeRefusalChangesNothing | tools/reservation.py:43-53 | anything but a made and saved booking leaves the store unchanged; an unlisted time gives "slot not available" |
| Booking.UnpaddedTimeNeverBooked | tools/reservation.py:52 | a time such as "9:00" is never booked |
| Booking.SameSecondReplaces | tools/reservation.py:56 | two bookings in the same second share an id, so the second replaces the first |
| Booking.MakeKeepsNoDoubleBooking | tools/reservation.py:43-74 | booking never creates a second confirmed reservation for a slot |
| Booking.SlotHeldByNone | tools/reservation.py:43-53 | a reservation for a listed slot clashes with no stored one |
| Booking.Apply | tools/reservation.py:146-158 | each key present in the updates overwrites its field; all other fields keep their values |
| Booking.UpdateReservation | tools/reservation.py:103-163 | reply and new store are those `Update` specifies |
| Booking.UpdateOutcomes | tools/reservation.py:116-163 | an unknown id and a cancelled reservation are refused with no change; past the checks the reply is True with the applied updates, written by `add_reservation` |
| Booking.UpdateWithoutMoveSkipsCheck | tools/reservation.py:130-144 | without a change of date, time or party size the updates apply unchecked |
| Booking.PartySizeOnlyUpdateRefused | tools/reservation.py:130-144 | changing only the party size of a confirmed reservation is always refused, since its own slot counts as booked |
| Booking.UpdateKeepsNoDoubleBooking | tools/reservation.py:125-161 | an update that leaves the status alone never creates a double booking |
| Booking.UpdateKeeps | tools/reservation.py:130-161 | overwriting a stored reservation keeps the invariant when its slot is checked or unchanged |
| Booking.UpdateConfirmsIntoTakenSlot | tools/reservation.py:153-154 | as written, re-confirming a set-aside reservation takes a slot booked in the meantime: two confirmed reservations at 19:00 |
| Booking.UpdateCheckedAgrees | tools/reservation.py:125-163 | the corrected update differs from the original only for updates that confirm a reservation |
| Booking.UpdateCheckedKeepsNoDoubleBooking | tools/reservation.py:125-163 | the corrected update never creates a double booking |
| Booking.CancelReservation | tools/reservation.py:165-189 | refusal and new store are those `CancelById` specifies |
| Booking.CancelByIdOutcomes | tools/reservation.py:176-189 | an unknown id and a cancelled reservation are refused with no change; otherwise the stored record becomes cancelled with every other field unchanged |
| Booking.CancelTwice | tools/reservation.py:181-183 | a second cancellation is refused as already cancelled |
| Booking.CancelKeepsNoDoubleBooking | tools/reservation.py:185-187 | cancelling never creates a double booking |
| Search.AdmitsMeaning | tools/search.py:22-32 | a restaurant passes the loop body exactly when it satisfies every truthy filter |
| Search.SearchIsPrefix | tools/search.py:20-39 | the results are the first matches in catalogue order, at most `limit` of them (one when `limit` is below one, since the test follows the append), and all matches when there are fewer |
| Search.SearchResultsSatisfy | tools/search.py:20-39 | every result is from the catalogue and satisfies the filters |
| Search.NoFiltersMatchAll | tools/search.py:22-31 | with no truthy filter every restaurant matches |
| Search.SearchRestaurants | tools/search.py:1-39 | the loop with `break` computes the search function |
| Search.GetRestaurantDetails | tools/search.py:41-52 | exactly the store's id look-up: the restaurant found has that id |
| Search.RecommendRestaurants | tools/search.py:54-95 | the loop and sort compute the recommendation function |
| Search.ScoreRestaurant | tools/search.py:74-91 | one restaurant's loop body computes its score |
| Search.ScoreAll | tools/search.py:73-91 | one score per restaurant, in catalogue order |
| Search.RecommendRanked | tools/search.py:93-95 | scores never increase, the first is the best in the catalogue, and there are `min(limit, n)` of them |
| Search.RecommendTiesKeepOrder | tools/search.py:94 | equal scores keep catalogue order |
| Search.ScoreParts | tools/search.py:74-91 | beyond the rating the score moves in 20ths: at most 120, a cuisine match always brings 60, and 100 or more needs one |
| Formatters.FormatClockHours | utils/formatters.py:107-112 | hour 0 is 12 AM, 1–11 AM, 12 is 12 PM, 13–23 are hour−12 PM, with the minute zero-padded |
| Formatters.FormatTimeUnreadable | utils/formatters.py:113-114 | text that does not parse comes back unchanged |
| Formatters.FormatTimeRoundTrip | utils/formatters.py:105-112 | the 12-hour text reads back as the hour and minute of the 24-hour text |
| Formatters.HalfPastMidnight | utils/formatters.py:111 | half past midnight reads "12:30 AM" |
| Formatters.FormatAvailableTimes | utils/formatters.py:34-61 | the method's answer is `AvailableTimesText` |
| Formatters.GroupByHour | utils/formatters.py:42-47 | the loop fills one group per hour read, keys in first-seen order, each group the times of that hour |
| Formatters.RenderLines | utils/formatters.py:49-59 | the second loop writes one line per sorted hour |
| Formatters.AvailableTimesErrors | utils/formatters.py:36-59 | ValueError exactly when an hour does not read, IndexError exactly when a slot has no colon, an answer otherwise |
| Formatters.LineHoursAscend | utils/formatters.py:49 | the lines' hours strictly ascend and are exactly the hours that occur |
| Formatters.EachTimeOnce | utils/formatters.py:42-59 | the times shown on the lines are a reordering of the input |
| Formatters.LineContents | utils/formatters.py:54-56 | each line lists only times of its own hour, in string order |
| Formatters.MidnightShownAsZero | utils/formatters.py:55 | a line shows "0:15 AM" where `format_time` says "12:15 AM" |
| Formatters.RatingRoundTrip | utils/formatters.py:9 | the rating text reads back as the rating |
| Formatters.FormatRestaurantList | utils/formatters.py:1-12 | the `+=` loop builds the header followed by the entries in order |
| Formatters.ListShowsEach | utils/formatters.py:7-10 | each restaurant's entry appears under its number in the list |
| Formatters.DetailsOutcome | utils/formatters.py:14-32 | None gives "Restaurant details not found."; KeyError exactly when weekday or weekend hours are missing |
| Formatters.DetailsPage | utils/formatters.py:20-30 | the page starts with the name as heading and holds both hours lines |
| Formatters.DefaultHoursShown | utils/formatters.py:20-21 | a restaurant built without hours shows "11:00 - 22:00" and "10:00 - 23:00" |
| Formatters.ConfirmationPage | utils/formatters.py:63-82 | the confirmation holds the name, the date, the time and the id |
| Formatters.ConfirmationQuotes | utils/formatters.py:63-82 | the confirmation quotes the id, the 12-hour time, the restaurant name and the date |
| QueryValidation.VagueReduces | core/query_validator.py:10-50 | vague exactly when not specific and holding "restaurants", "options", "what do you have" or "what's available" |
| QueryValidation.SpecificNeverVague | core/query_validator.py:22-31 | a specific word rules out vagueness |
| QueryValidation.ShowMeRestaurantsIsVague | core/query_validator.py:34-48 | "show me restaurants" is vague |
| QueryValidation.FindItalianDowntownIsSpecific | core/query_validator.py:22-31 | "find italian food downtown" is not vague |
| QueryValidation.VagueWithoutLetters | core/query_validator.py:18-48 | a query with "restaurants" and none of the letters i, f, c, j, x, d, p, l or `$` is vague |
| QueryValidation.NoSpecificWord | core/query_validator.py:18-31 | without those letters no specific word occurs |
| QueryValidation.PromptAround | core/query_validator.py:53-65 | the clarification prompt asks for cuisine, location, price range and party size |
| ToolValidation.OtherCallsAccepted | core/tool_validator.py:15-16 | no call, or a call of another tool, passes |
| ToolValidation.SearchCallGrounded | core/tool_validator.py:10-38 | a search call passes exactly when its arguments decode to an object whose truthy cuisine, location and price are each grounded |
| ToolValidation.UndecodableArgumentsRejected | core/tool_validator.py:37-38 | arguments that are not a JSON object reject the call |
| ToolValidation.QueryCaseIgnored | core/tool_validator.py:18 | the query's letter case never matters |
| ToolValidation.DollarSignsDecide | core/tool_validator.py:101-103 | with one to four `$`, a price is grounded exactly when it is at most their number |
| ToolValidation.PriceWordsGround | core/tool_validator.py:106-123 | otherwise a word for the level, or any general price word, grounds the price |
| ToolValidation.SushiGroundsJapanese | core/tool_validator.py:41-68 | "sushi" grounds the cuisine "Japanese" through the variations table |
| ToolsRegistry.RegisteredToolsShape | core/tools_registry.py:11-132 | four tools, in order, with required arguments `[]`, `[restaurant_id]`, `[restaurant_id, date]` and `[restaurant_id, customer_name, date, time, party_size]` |
| ToolsRegistry.RequiredAreParams | core/tools_registry.py:11-132 | every required argument is a declared parameter |
| ToolsRegistry.DispatchedExactlyRegistered | core/tools_registry.py:145-194 | the dispatcher has a branch for exactly the registered names |
| ToolsRegistry.ExecuteToolCall | core/tools_registry.py:134-201 | reply and new store are those `Execute` specifies |
| ToolsRegistry.SearchTool | core/tools_registry.py:145-153 | the search branch's reply |
| ToolsRegistry.DetailsTool | core/tools_registry.py:155-160 | the details branch's reply |
| ToolsRegistry.AvailabilityTool | core/tools_registry.py:162-170 | the availability branch's reply |
| ToolsRegistry.BookingTool | core/tools_registry.py:172-191 | the booking branch's reply and new store |
| ToolsRegistry.UndecodableArguments | core/tools_registry.py:138 | arguments that are not JSON give the error reply and store nothing |
| ToolsRegistry.UnknownToolReply | core/tools_registry.py:193-194 | an unknown name gets the unknown-tool reply and stores nothing |
| ToolsRegistry.OnlyBookingWrites | core/tools_registry.py:145-170 | only `make_reservation` can change the store |
| ToolsRegistry.DispatchersAgree | core/conversation_manager.py:102-175 | the manager's dispatcher differs from the registry's only in the unknown-tool reply |
| ToolsRegistry.SearchReplyLists | core/tools_registry.py:145-153 | a search lists at most five restaurants, first matches first, each from the catalogue and satisfying the filters |
| ToolsRegistry.BookingFailureReply | core/tools_registry.py:190-191 | a refused booking gives the apology with the refusal's message and stores nothing |
| ToolsRegistry.BookingUnsavedReply | core/tools_registry.py:190-191 | a booking whose write fails gets the apology around the reservation object's text, and the store is unchanged |
| ToolsRegistry.BookingSuccessReply | core/tools_registry.py:184-189 | a saved booking is confirmed with the restaurant found by the same id, and the reply quotes the reservation id |
| ToolsRegistry.MadeAtKnownRestaurant | core/tools_registry.py:184-189 | a booking is only made at a stored restaurant and leaves the restaurants unchanged |
| ToolsRegistry.MissingPartySizeIsError | core/tools_registry.py:196-201 | a booking of a known restaurant without a party size gives the error reply and stores nothing |
| ToolsRegistry.ExecuteKeepsNoDoubleBooking | core/tools_registry.py:134-201 | no tool call creates a double booking |
| Conversation.SystemMessageNamesUserAndDate | core/conversation_manager.py:79-100 | the system message has the role "system" and names the user and the date |
| Conversation.OpeningShape | core/conversation_manager.py:30-40 | the system message, then the last `min(5, n)` history messages in order, then the user's message |
| Conversation.Steps | core/conversation_manager.py:54-72 | one result and two messages per call |
| Conversation.StepsPaired | core/conversation_manager.py:59-72 | message `2j` is the assistant message holding call `j` alone with no text; message `2j+1` answers its id with result `j` |
| Conversation.StepsPrefix | core/conversation_manager.py:54-72 | running a prefix of the calls gives a prefix of the results and messages |
| Conversation.ResultsInCallOrder | core/conversation_manager.py:55-58 | result `j` is call `j`'s reply on the store the earlier calls left |
| Conversation.StepsKeepNoDoubleBooking | core/conversation_manager.py:54-72 | a turn's calls never create a double booking |
| Conversation.StepsWithoutBookingKeepStore | core/conversation_manager.py:54-72 | calls that do not book leave the store unchanged |
| Conversation.NoToolCallsOneCall | core/conversation_manager.py:43-47 | without tool calls the first reply is the answer, with no results, the opening messages and an untouched store |
| Conversation.ToolCallsPaired | core/conversation_manager.py:54-77 | `k` calls give `k` results and `2k` more messages, each call paired with its result, and the reply comes from the tools-off chat over the whole list |
| Conversation.TurnKeepsNoDoubleBooking | core/conversation_manager.py:16-77 | a whole turn keeps every slot booked at most once |
| Conversation.ConversationManager.constructor | core/conversation_manager.py:11-14 | the manager holds the chat model and the store |
| Conversation.ConversationManager.ProcessMessage | core/conversation_manager.py:16-77 | reply, results, messages and new store are those of `Turn` |
| Conversation.ConversationManager.OpeningMessages | core/conversation_manager.py:33-40 | the appends build the opening |
| Conversation.ConversationManager.RunCalls | core/conversation_manager.py:54-72 | the loop over the calls gives the results, messages and store of `Steps` |

## Left out

- File persistence of the store (`_load_json`, `_save_json`, `os.makedirs`): the store holds its two lists in memory. `get_all_restaurants` and `get_all_reservations` read those fields directly.
- Store.DataStore.AddReservation: the outcome of the file write is a parameter (`writeOk`). I/O errors are not modelled otherwise.
- Clock reads (`datetime.now()` for ids, creation times and the prompt date) are parameters: `stamp`, `now`, `today`, and the per-call environment `world`.
- The language model and its HTTP transport (`llm_service`) are not modelled. The model is an uninterpreted function `chat(messages, toolsEnabled)`.
- `app.py`, `ui/`, `utils/llm.py`, `utils/prompts.py` and `data/sample_data.py` are not part of this model. `app.py`'s copy of the dispatcher and the turn loop are not modelled either.
- Debug prints and tracebacks are not modelled.
- The race between checking a slot and writing the booking, under concurrent requests, is not modelled.
- Restaurant ratings are floats in the code. The model uses integer tenths, and recommendation scores use twentieths, so arithmetic is exact.
- Python.Json: JSON booleans, floats and arrays are not modelled, so tool arguments never carry them. In Python a `party_size` of 4.5 passes the capacity comparison (tools/reservation.py:31) and is then refused with "Invalid party size: 4.5. Must be a positive number." by the `isinstance(party_size, int)` test (tools/reservation.py:226). A `party_size` of `true` passes both tests and is booked as a party of one. In the model every non-integer party size raises TypeError at the capacity comparison, so the invalid-party-size reply is reached only for integers below one.
- Reservations.FromDict, Restaurants.FromDict: record fields are typed, so a stored value of another type under a required key (for example `"party_size": "4"`) is treated as a failed load (None). Python's `from_dict` builds the object from any value and checks no types.
- Python `int()` is modelled as an optional sign followed by ASCII digits. Surrounding whitespace and `_` separators are not accepted.
- Clock.ParseDate: the digit fields of `strptime("%Y-%m-%d")` are ASCII digits only. Python's `\d` also matches other Unicode decimal digits, and such dates would parse there but are refused in the model; the same holds for `int()` in Clock.ParseClock.
- `lower()` is ASCII only.
- Exceptions are modelled by class. The error reply's text after "Error executing tool: " is the exception class name, not Python's message. `str()` of a whole dictionary is not rendered.
- The `str()` of a `Reservation` object is not rendered. When the booking's write fails, `make_reservation` returns the object itself and the apology embeds its `str()`; that text is a parameter (`objectText`) (ToolsRegistry.BookingUnsavedReply).
- A tool call dictionary without "function", "name" or "id" keys is not modelled. Calls are typed records whose arguments either decode or raise.
- `tool_calls` of None is modelled as the empty list, as `not tool_calls` treats both alike.
- Booking.UpdateReservation: `updates` is a typed record of optional fields (date, time, party size, status, email, phone). An update value of another JSON type is not modelled, nor a key outside these six.
- The inner `open`/`close` keys of an hours entry are taken as present. A missing inner key (KeyError) is not modelled.
- `hour_display` in `format_available_times` is computed and never used. It is left out.
- `format_reservation_details` is not part of this model.
- `get_reservation` in tools/reservation.py:90-101 only forwards to the store. `Store.DataStore.GetReservation` models both.
- Reservations.Cancel: `cancel()` changes the object in place and returns it. The model returns the changed value; with no sharing of reservation objects this is the same.
- `suggest_alternative_times` removes, sorts and extends a list in place. It is modelled on values (`Suggest`), a function over sequences, so the model does not capture update in place.
- The in-place `list.sort` and `sorted` calls are written as a stable insertion sort over values (`Sorting`). Permutation, ordering and stability are proved for it.

## Findings

| source | as written | input that shows it | evidently intended | confidence | as-written member | corrected member |
|---|---|---|---|---|---|---|
| models/restaurant.py:51 | compares the opening, closing and requested times as strings | weekend hours open "8:00", close "23:00"; `is_open_at("weekend", "09:00")` is False, since "8" sorts after "0" | compare times of day, so the restaurant is open at 09:00 | not executed | Restaurants.IsOpenAtUnpaddedOpening | Restaurants.IsOpenAtByClock |
| tools/reservation.py:130-154 | checks availability only when the date, time or party size change, so a status set back to "confirmed" is never checked | reservation res_1 set to "pending" at 19:00; res_2 confirmed at 19:00 for the same restaurant and date; updating res_1 with status "confirmed" succeeds | a change that confirms a reservation is checked against the listed slots, keeping at most one confirmed reservation per slot | not executed | Booking.UpdateConfirmsIntoTakenSlot | Booking.UpdateChecked |

The corrected members come with their proofs:

- `Restaurants.IsOpenAtByClockAgrees` shows the corrected check agrees with the original on zero-padded text.
- `Restaurants.IsOpenAtByClockUnpaddedOpening` shows it answers open in the case above.
- `Booking.UpdateCheckedAgrees` shows the corrected update differs from the original only for updates that confirm a reservation.
- `Booking.UpdateCheckedKeepsNoDoubleBooking` proves the invariant for every update.
