/** The booking tools: `validate_reservation_data`, `make_reservation`,
    `update_reservation` and `cancel_reservation`. Each is a function from the
    stored data to its reply and the stored data afterwards, and a method on
    the store proved equal to it. Clock readings and the outcome of the file
    write are parameters. */
module Booking {
  import opened Python
  import opened Clock
  import opened Restaurants
  import opened Reservations
  import opened Store
  import opened Availability

  /** The reasons a booking tool turns a request down; `Message` gives the
      text the tool returns for each. */
  datatype Refusal =
    | RestaurantNotFound
    | PartyExceedsCapacity(limit: int)
    | UnknownRestaurant(rid: Json)
    | InvalidDate
    | MalformedTime
    | TimeOutOfRange(time: string)
    | InvalidPartySize(party: Json)
    | PartyOverCapacity(size: int, limit: int)
    | SlotUnavailable
    | ReservationNotFound
    | ReservationCancelled
    | AlreadyCancelled

  function Message(e: Refusal): string
  {
    match e
    case RestaurantNotFound => "Restaurant not found"
    case PartyExceedsCapacity(c) => "Party size exceeds restaurant capacity (" + IntToString(c) + ")"
    case UnknownRestaurant(rid) => "Restaurant with ID '" + Str(rid) + "' does not exist."
    case InvalidDate => "Invalid date format. Please use YYYY-MM-DD format."
    case MalformedTime => "Invalid time format. Please use HH:MM format."
    case TimeOutOfRange(t) => "Invalid time: " + t + ". Please use HH:MM format (24-hour)."
    case InvalidPartySize(p) => "Invalid party size: " + Str(p) + ". Must be a positive number."
    case PartyOverCapacity(p, c) =>
      "Party size " + IntToString(p) + " exceeds restaurant capacity of " + IntToString(c) + "."
    case SlotUnavailable => "The requested time slot is not available"
    case ReservationNotFound => "Reservation not found"
    case ReservationCancelled => "Cannot modify a cancelled reservation"
    case AlreadyCancelled => "Reservation is already cancelled"
  }

  /** The verdict of `validate_reservation_data`: `(True, "Validation
      successful")` or `(False, Message(reason))`. */
  datatype Verdict = Valid | Invalid(reason: Refusal)

  /** The reply of `make_reservation` and `update_reservation`: `(False,
      Message(reason))`, or the success flag with the reservation. */
  datatype Booked = Refused(reason: Refusal) | Made(saved: bool, reservation: Reservation)

  /** The stored data after `add_reservation(r)`: the upsert by id when the
      write succeeds, unchanged when it fails. */
  function Save(db: Db, r: Reservation, writeOk: bool): (after: Db)
    ensures after.restaurants == db.restaurants
    ensures writeOk ==> Find(after.reservations, ReservationKey, r.id) == Some(r)
    ensures !writeOk ==> after == db
  {
    SavedReservationFound(db.reservations, r);
    if writeOk then Db(db.restaurants, Upsert(db.reservations, ReservationKey, r)) else db
  }

  // ---------------------------------------------------------------- no double booking

  /** Two confirmed reservations holding the same restaurant, date and time. */
  predicate SameSlot(a: Reservation, b: Reservation)
  {
    a.status == Confirmed && b.status == Confirmed
    && a.restaurantId == b.restaurantId && a.date == b.date && a.time == b.time
  }

  /** At most one confirmed reservation per (restaurant, date, time), the
      three compared as stored text. */
  predicate NoDoubleBooking(s: seq<Reservation>)
  {
    forall i, j :: 0 <= i < j < |s| ==> !SameSlot(s[i], s[j])
  }

  /** Writing `r` keeps the invariant when no entry other than the one it
      replaces holds its slot. */
  lemma UpsertKeepsNoDoubleBooking(s: seq<Reservation>, r: Reservation)
    requires NoDoubleBooking(s)
    requires forall j :: 0 <= j < |s| && j != IndexOf(s, ReservationKey, r.id) ==> !SameSlot(s[j], r)
    ensures NoDoubleBooking(Upsert(s, ReservationKey, r))
  {
    var k := IndexOf(s, ReservationKey, r.id);
    var t := Upsert(s, ReservationKey, r);
    forall i, j | 0 <= i < j < |t| ensures !SameSlot(t[i], t[j]) {
      if i < |s| && i != k {
        assert t[i] == s[i];
      }
      if j < |s| && j != k {
        assert t[j] == s[j];
      }
    }
  }

  // ---------------------------------------------------------------- validate_reservation_data

  /** What `validate_reservation_data` accepts: a known restaurant, a date
      `strptime` reads, an "H:M" time of two integers with hour 0-23 and
      minute 0-59, and an integer party of 1 up to the capacity. */
  predicate Acceptable(db: Db, rid: Json, date: Json, time: Json, party: Json)
  {
    RestaurantById(db.restaurants, rid).Some?
    && date.JStr? && ParseDate(date.s).Some?
    && time.JStr? && ClockReading(time.s)
    && party.JInt? && 0 < party.i <= RestaurantById(db.restaurants, rid).value.capacity
  }

  predicate ClockReading(s: string)
  {
    ParseClock(s).Some? && 0 <= ParseClock(s).value.0 <= 23 && 0 <= ParseClock(s).value.1 <= 59
  }

  /** `validate_reservation_data`: valid exactly for acceptable arguments,
      otherwise the reason of the first check that fails. */
  function Validate(db: Db, rid: Json, date: Json, time: Json, party: Json): (o: Outcome<Verdict>)
    ensures o == Returned(Valid) <==> Acceptable(db, rid, date, time, party)
    ensures RestaurantById(db.restaurants, rid).None? ==> o == Returned(Invalid(UnknownRestaurant(rid)))
  {
    match RestaurantById(db.restaurants, rid)
    case None => Returned(Invalid(UnknownRestaurant(rid)))
    case Some(r) => CheckFields(r, date, time, party)
  }

  /** The checks after the restaurant is found. `strptime` of a value that is
      not text raises TypeError and `split` on one raises AttributeError,
      neither of which is caught; the comparisons `0 <= int(hours) <= 23 and
      0 <= int(minutes) <= 59` run left to right, so an hour out of range is
      reported before the minutes are read. */
  function CheckFields(r: Restaurant, date: Json, time: Json, party: Json): (o: Outcome<Verdict>)
    ensures o == Returned(Valid) <==>
              date.JStr? && ParseDate(date.s).Some? && time.JStr? && ClockReading(time.s)
              && party.JInt? && 0 < party.i <= r.capacity
  {
    if !date.JStr? then Raised(TypeError)
    else if ParseDate(date.s).None? then Returned(Invalid(InvalidDate))
    else if !time.JStr? then Raised(AttributeError)
    else
      var parts := Split(time.s, ':');
      if |parts| != 2 || ParseInt(parts[0]).None? then Returned(Invalid(MalformedTime))
      else if !(0 <= ParseInt(parts[0]).value <= 23) then Returned(Invalid(TimeOutOfRange(time.s)))
      else if ParseInt(parts[1]).None? then Returned(Invalid(MalformedTime))
      else if !(0 <= ParseInt(parts[1]).value <= 59) then Returned(Invalid(TimeOutOfRange(time.s)))
      else if !party.JInt? || party.i <= 0 then Returned(Invalid(InvalidPartySize(party)))
      else if party.i > r.capacity then Returned(Invalid(PartyOverCapacity(party.i, r.capacity)))
      else Returned(Valid)
  }

  /** An hour out of range is reported as such even when the minutes are not
      a number. */
  lemma HourCheckedFirst(r: Restaurant, date: Json, time: Json, party: Json)
    requires date.JStr? && ParseDate(date.s).Some? && time.JStr?
    requires var parts := Split(time.s, ':');
             |parts| == 2 && ParseInt(parts[0]).Some? && ParseInt(parts[0]).value > 23
    ensures CheckFields(r, date, time, party) == Returned(Invalid(TimeOutOfRange(time.s)))
  {
  }

  /** `validate_reservation_data` on the store. */
  method ValidateReservationData(store: DataStore, rid: Json, date: Json, time: Json, party: Json)
    returns (o: Outcome<Verdict>)
    ensures o == Validate(store.State(), rid, date, time, party)
  {
    var found: Option<Restaurant> := None;
    if rid.JStr? {
      found := store.GetRestaurant(rid.s);
    }
    if found.None? {
      return Returned(Invalid(UnknownRestaurant(rid)));
    }
    o := CheckFields(found.value, date, time, party);
  }

  // ---------------------------------------------------------------- make_reservation

  /** The id `f"res_{stamp}"`, `stamp` being the clock read as "%Y%m%d%H%M%S". */
  function ReservationId(stamp: string): (id: string)
    ensures |id| == |stamp| + 4 && id[..4] == "res_" && id[4..] == stamp
  {
    "res_" + stamp
  }

  /** `make_reservation`: restaurant lookup, `party_size > capacity` (a
      TypeError when the party size is not a number), validation, then the
      slot must be among `check_availability(...)`; only then is the
      reservation built (confirmed, stamped `now`) and saved, and the reply
      carries the save result. Every refusal and every exception comes
      before the write. */
  function Make(db: Db, rid: Json, name: Json, date: Json, time: Json, party: Json, email: Json, phone: Json,
                stamp: string, now: string, writeOk: bool): (Outcome<Booked>, Db)
  {
    match RestaurantById(db.restaurants, rid)
    case None => (Returned(Refused(RestaurantNotFound)), db)
    case Some(r) =>
      if !party.JInt? then (Raised(TypeError), db)
      else if party.i > r.capacity then (Returned(Refused(PartyExceedsCapacity(r.capacity))), db)
      else
        Book(db, rid, name, date, time, party, email, phone, stamp, now, writeOk)
  }

  /** `make_reservation` from the validation on. */
  function Book(db: Db, rid: Json, name: Json, date: Json, time: Json, party: Json, email: Json, phone: Json,
                stamp: string, now: string, writeOk: bool): (Outcome<Booked>, Db)
  {
    match Validate(db, rid, date, time, party)
    case Raised(e) => (Raised(e), db)
    case Returned(v) =>
      if v.Invalid? then (Returned(Refused(v.reason)), db)
      else Reserve(db, rid, name, date, time, party, email, phone, stamp, now, writeOk)
  }

  /** The end of `make_reservation`, once the arguments are valid: the slot
      check, then the new reservation and its save. */
  function Reserve(db: Db, rid: Json, name: Json, date: Json, time: Json, party: Json, email: Json, phone: Json,
                   stamp: string, now: string, writeOk: bool): (Outcome<Booked>, Db)
    requires rid.JStr? && date.JStr? && time.JStr? && party.JInt?
  {
    match AvailableSlots(db, rid, date, time, party)
    case Raised(e) => (Raised(e), db)
    case Returned(slots) =>
      if time.s !in slots then (Returned(Refused(SlotUnavailable)), db)
      else
        var booked := NewReservation(ReservationId(stamp), rid.s, name, date.s, time.s, party.i, now, email, phone);
        (Returned(Made(writeOk, booked)), Save(db, booked, writeOk))
  }

  /** `make_reservation` on the store. */
  method MakeReservation(store: DataStore, rid: Json, name: Json, date: Json, time: Json, party: Json,
                         email: Json, phone: Json, stamp: string, now: string, writeOk: bool)
    returns (o: Outcome<Booked>)
    modifies store
    ensures o == Make(old(store.State()), rid, name, date, time, party, email, phone, stamp, now, writeOk).0
    ensures store.State() == Make(old(store.State()), rid, name, date, time, party, email, phone, stamp, now, writeOk).1
  {
    var found: Option<Restaurant> := None;
    if rid.JStr? {
      found := store.GetRestaurant(rid.s);
    }
    if found.None? {
      return Returned(Refused(RestaurantNotFound));
    }
    var restaurant := found.value;
    if !party.JInt? {
      return Raised(TypeError);
    }
    if party.i > restaurant.capacity {
      return Returned(Refused(PartyExceedsCapacity(restaurant.capacity)));
    }
    o := BookSlot(store, rid, name, date, time, party, email, phone, stamp, now, writeOk);
  }

  /** `make_reservation` on the store from the validation on. */
  method BookSlot(store: DataStore, rid: Json, name: Json, date: Json, time: Json, party: Json,
                  email: Json, phone: Json, stamp: string, now: string, writeOk: bool)
    returns (o: Outcome<Booked>)
    modifies store
    ensures o == Book(old(store.State()), rid, name, date, time, party, email, phone, stamp, now, writeOk).0
    ensures store.State() == Book(old(store.State()), rid, name, date, time, party, email, phone, stamp, now, writeOk).1
  {
    var valid := ValidateReservationData(store, rid, date, time, party);
    if valid.Raised? {
      return Raised(valid.exc);
    }
    if valid.value.Invalid? {
      return Returned(Refused(valid.value.reason));
    }
    o := ReserveSlot(store, rid, name, date, time, party, email, phone, stamp, now, writeOk);
  }

  /** The end of `make_reservation` on the store. */
  method ReserveSlot(store: DataStore, rid: Json, name: Json, date: Json, time: Json, party: Json,
                     email: Json, phone: Json, stamp: string, now: string, writeOk: bool)
    returns (o: Outcome<Booked>)
    requires rid.JStr? && date.JStr? && time.JStr? && party.JInt?
    modifies store
    ensures o == Reserve(old(store.State()), rid, name, date, time, party, email, phone, stamp, now, writeOk).0
    ensures store.State() == Reserve(old(store.State()), rid, name, date, time, party, email, phone, stamp, now, writeOk).1
  {
    var available := CheckAvailability(store, rid, date, time, party);
    if available.Raised? {
      return Raised(available.exc);
    }
    if time.s !in available.value {
      return Returned(Refused(SlotUnavailable));
    }
    var booked := NewReservation(ReservationId(stamp), rid.s, name, date.s, time.s, party.i, now, email, phone);
    var saved := store.AddReservation(booked, writeOk);
    o := Returned(Made(saved, booked));
  }

  /** The order of the checks: an unknown restaurant is reported before
      anything else, the capacity before the argument formats, a missing or
      non-numeric party size raises TypeError (caught by the dispatcher), and
      none of these touches the store. */
  lemma MakeChecksInOrder(db: Db, rid: Json, name: Json, date: Json, time: Json, party: Json, email: Json,
                          phone: Json, stamp: string, now: string, writeOk: bool)
    ensures var (o, after) := Make(db, rid, name, date, time, party, email, phone, stamp, now, writeOk);
            && (RestaurantById(db.restaurants, rid).None? ==> o == Returned(Refused(RestaurantNotFound)) && after == db)
            && (RestaurantById(db.restaurants, rid).Some? && !party.JInt? ==> o == Raised(TypeError) && after == db)
            && (RestaurantById(db.restaurants, rid).Some? && party.JInt?
                && party.i > RestaurantById(db.restaurants, rid).value.capacity ==>
                  o == Returned(Refused(PartyExceedsCapacity(RestaurantById(db.restaurants, rid).value.capacity)))
                  && after == db)
  {
  }

  /** A reservation is made exactly when the arguments are acceptable and the
      time is one of the slots `check_availability` lists. It is confirmed,
      carries the id `res_<stamp>` and exactly the given details, the reply's
      flag is the save result, and a saved reservation is what
      `get_reservation` then returns. */
  lemma MakeSucceeds(db: Db, rid: Json, name: Json, date: Json, time: Json, party: Json, email: Json,
                     phone: Json, stamp: string, now: string, writeOk: bool)
    ensures var (o, after) := Make(db, rid, name, date, time, party, email, phone, stamp, now, writeOk);
            (o.Returned? && o.value.Made?) <==>
              (Acceptable(db, rid, date, time, party)
               && AvailableSlots(db, rid, date, time, party).Returned?
               && time.s in AvailableSlots(db, rid, date, time, party).value)
    ensures var (o, after) := Make(db, rid, name, date, time, party, email, phone, stamp, now, writeOk);
            o.Returned? && o.value.Made? ==>
              var r := o.value.reservation;
              && o.value.saved == writeOk
              && r.status == "confirmed" && r.id == "res_" + stamp && r.createdAt == now
              && JStr(r.restaurantId) == rid && r.customerName == name && JStr(r.date) == date
              && JStr(r.time) == time && JInt(r.partySize) == party && r.email == email && r.phone == phone
              && after == Save(db, r, writeOk)
              && after.restaurants == db.restaurants
              && (writeOk ==> Find(after.reservations, ReservationKey, r.id) == Some(r))
              && (!writeOk ==> after == db)
  {
  }

  /** Anything but a made and saved reservation leaves the store as it was;
      in particular a time not listed by `check_availability` is refused with
      "The requested time slot is not available". */
  lemma MakeRefusalChangesNothing(db: Db, rid: Json, name: Json, date: Json, time: Json, party: Json, email: Json,
                                  phone: Json, stamp: string, now: string, writeOk: bool)
    ensures var (o, after) := Make(db, rid, name, date, time, party, email, phone, stamp, now, writeOk);
            !(o.Returned? && o.value.Made? && writeOk) ==> after == db
    ensures var (o, after) := Make(db, rid, name, date, time, party, email, phone, stamp, now, writeOk);
            Acceptable(db, rid, date, time, party) && AvailableSlots(db, rid, date, time, party).Returned?
            && time.s !in AvailableSlots(db, rid, date, time, party).value ==>
              o == Returned(Refused(SlotUnavailable))
  {
  }

  /** A time written without the leading zero, such as "9:00", is never
      booked: every listed slot has two hour digits. */
  lemma UnpaddedTimeNeverBooked(db: Db, rid: Json, name: Json, date: Json, time: Json, party: Json, email: Json,
                                phone: Json, stamp: string, now: string, writeOk: bool)
    requires time.JStr? && |time.s| >= 2 && time.s[1] == ':'
    ensures !Make(db, rid, name, date, time, party, email, phone, stamp, now, writeOk).0.Returned?
            || !Make(db, rid, name, date, time, party, email, phone, stamp, now, writeOk).0.value.Made?
  {
    if AvailableSlots(db, rid, date, time, party).Returned? {
      ListedSlotsPadded(db, rid, date, time, party);
    }
  }

  /** Two bookings stamped in the same second get the same id, so the second
      replaces the first instead of adding a reservation. */
  lemma SameSecondReplaces(db: Db, rid: Json, name: Json, date: Json, time: Json, party: Json, email: Json,
                           phone: Json, stamp: string, now: string, i: nat)
    requires i < |db.reservations| && db.reservations[i].id == "res_" + stamp
    requires forall j :: 0 <= j < i ==> db.reservations[j].id != "res_" + stamp
    requires Make(db, rid, name, date, time, party, email, phone, stamp, now, true).0.Returned?
    requires Make(db, rid, name, date, time, party, email, phone, stamp, now, true).0.value.Made?
    ensures var after := Make(db, rid, name, date, time, party, email, phone, stamp, now, true).1;
            |after.reservations| == |db.reservations|
            && after.reservations[i] == Make(db, rid, name, date, time, party, email, phone, stamp, now, true).0.value.reservation
  {
    var r := Make(db, rid, name, date, time, party, email, phone, stamp, now, true).0.value.reservation;
    UpsertExisting(db.reservations, ReservationKey, r, i);
  }

  /** `make_reservation` never creates a second confirmed reservation for a
      slot: the slot it books is listed by `check_availability`, which leaves
      out the times of the confirmed reservations for that restaurant and
      date. */
  lemma MakeKeepsNoDoubleBooking(db: Db, rid: Json, name: Json, date: Json, time: Json, party: Json, email: Json,
                                 phone: Json, stamp: string, now: string, writeOk: bool)
    requires NoDoubleBooking(db.reservations)
    ensures NoDoubleBooking(Make(db, rid, name, date, time, party, email, phone, stamp, now, writeOk).1.reservations)
  {
    MakeSucceeds(db, rid, name, date, time, party, email, phone, stamp, now, writeOk);
    var (o, after) := Make(db, rid, name, date, time, party, email, phone, stamp, now, writeOk);
    if o.Returned? && o.value.Made? && writeOk {
      var r := o.value.reservation;
      SlotHeldByNone(db, rid, date, time, party, r);
      UpsertKeepsNoDoubleBooking(db.reservations, r);
    }
  }

  /** A reservation for a slot `check_availability` lists clashes with no
      stored reservation. */
  lemma SlotHeldByNone(db: Db, rid: Json, date: Json, time: Json, party: Json, r: Reservation)
    requires AvailableSlots(db, rid, date, time, party).Returned?
    requires r.time in AvailableSlots(db, rid, date, time, party).value
    requires JStr(r.restaurantId) == rid && JStr(r.date) == date
    ensures forall j :: 0 <= j < |db.reservations| ==> !SameSlot(db.reservations[j], r)
  {
    var s := db.reservations;
    forall j | 0 <= j < |s| && IsConfirmedOn(s[j], rid, date) ensures s[j].time != r.time {
      ConfirmedBookingBlocks(db, rid, date, time, party, s[j]);
    }
  }

  // ---------------------------------------------------------------- update_reservation

  /** The keys of the `updates` dict `update_reservation` reads, each None
      when the key is absent. */
  datatype Updates = Updates(date: Option<string>, time: Option<string>, partySize: Option<int>,
                             status: Option<string>, email: Option<Json>, phone: Option<Json>)

  function OrElse<T>(o: Option<T>, d: T): T
  {
    if o.Some? then o.value else d
  }

  /** The "Apply updates" block: each key present in `updates` overwrites its
      field. */
  function Apply(r: Reservation, u: Updates): (n: Reservation)
    ensures n.id == r.id && n.restaurantId == r.restaurantId && n.customerName == r.customerName
    ensures n.createdAt == r.createdAt
    ensures u.date.None? ==> n.date == r.date
    ensures u.time.None? ==> n.time == r.time
    ensures u.partySize.None? ==> n.partySize == r.partySize
    ensures u.status.None? ==> n.status == r.status
    ensures u.email.None? ==> n.email == r.email
    ensures u.phone.None? ==> n.phone == r.phone
    ensures u.date.Some? ==> n.date == u.date.value
    ensures u.time.Some? ==> n.time == u.time.value
    ensures u.partySize.Some? ==> n.partySize == u.partySize.value
    ensures u.status.Some? ==> n.status == u.status.value
    ensures u.email.Some? ==> n.email == u.email.value
    ensures u.phone.Some? ==> n.phone == u.phone.value
  {
    r.(date := OrElse(u.date, r.date), time := OrElse(u.time, r.time),
       partySize := OrElse(u.partySize, r.partySize), status := OrElse(u.status, r.status),
       email := OrElse(u.email, r.email), phone := OrElse(u.phone, r.phone))
  }

  /** Date, time or party size differ from the stored ones. */
  predicate MovesSlot(r: Reservation, u: Updates)
  {
    OrElse(u.date, r.date) != r.date || OrElse(u.time, r.time) != r.time
    || OrElse(u.partySize, r.partySize) != r.partySize
  }

  /** `update_reservation`: refused for an unknown id or a cancelled
      reservation; when date, time or party size change, the new time must be
      among `check_availability` for the new values (the reservation's own
      slot still counts as booked); then the updates are applied and saved,
      and the reply is `(True, reservation)` whatever the write gives. */
  function Update(db: Db, id: string, u: Updates, writeOk: bool): (Outcome<Booked>, Db)
  {
    match Find(db.reservations, ReservationKey, id)
    case None => (Returned(Refused(ReservationNotFound)), db)
    case Some(r) =>
      if r.status == Cancelled then (Returned(Refused(ReservationCancelled)), db)
      else if !MovesSlot(r, u) then (Returned(Made(true, Apply(r, u))), Save(db, Apply(r, u), writeOk))
      else Recheck(db, r, Apply(r, u), writeOk)
  }

  /** The availability check of `update_reservation` for the updated `n` of
      the stored `r`, then the save. */
  function Recheck(db: Db, r: Reservation, n: Reservation, writeOk: bool): (Outcome<Booked>, Db)
  {
    match AvailableSlots(db, JStr(r.restaurantId), JStr(n.date), JStr(n.time), JInt(n.partySize))
    case Raised(e) => (Raised(e), db)
    case Returned(slots) =>
      if n.time !in slots then (Returned(Refused(SlotUnavailable)), db)
      else (Returned(Made(true, n)), Save(db, n, writeOk))
  }

  /** `update_reservation` on the store. */
  method UpdateReservation(store: DataStore, id: string, u: Updates, writeOk: bool) returns (o: Outcome<Booked>)
    modifies store
    ensures o == Update(old(store.State()), id, u, writeOk).0
    ensures store.State() == Update(old(store.State()), id, u, writeOk).1
  {
    var found := store.GetReservation(id);
    if found.None? {
      return Returned(Refused(ReservationNotFound));
    }
    var reservation := found.value;
    if reservation.status == Cancelled {
      return Returned(Refused(ReservationCancelled));
    }
    var newDate := OrElse(u.date, reservation.date);
    var newTime := OrElse(u.time, reservation.time);
    var newPartySize := OrElse(u.partySize, reservation.partySize);
    if newDate != reservation.date || newTime != reservation.time || newPartySize != reservation.partySize {
      var available := CheckAvailability(store, JStr(reservation.restaurantId), JStr(newDate), JStr(newTime),
                                         JInt(newPartySize));
      if available.Raised? {
        return Raised(available.exc);
      }
      if newTime !in available.value {
        return Returned(Refused(SlotUnavailable));
      }
    }
    reservation := Apply(reservation, u);
    var _ := store.AddReservation(reservation, writeOk);
    o := Returned(Made(true, reservation));
  }

  /** An unknown id and a cancelled reservation are refused and change
      nothing; past those checks the reply is always True, the reservation
      keeps its id, restaurant, customer and creation time, and every field
      not named in `updates` keeps its value. */
  lemma UpdateOutcomes(db: Db, id: string, u: Updates, writeOk: bool)
    ensures var (o, after) := Update(db, id, u, writeOk);
            && (Find(db.reservations, ReservationKey, id).None? ==> o == Returned(Refused(ReservationNotFound)) && after == db)
            && (Find(db.reservations, ReservationKey, id).Some? && Find(db.reservations, ReservationKey, id).value.status == "cancelled"
                ==> o == Returned(Refused(ReservationCancelled)) && after == db)
            && (o.Returned? && o.value.Made? ==>
                  o.value.saved && Find(db.reservations, ReservationKey, id).Some?
                  && o.value.reservation == Apply(Find(db.reservations, ReservationKey, id).value, u)
                  && after == Save(db, o.value.reservation, writeOk))
            && (!(o.Returned? && o.value.Made?) ==> after == db)
  {
  }

  /** Without a change of date, time or party size nothing is checked: the
      updates are applied whatever the slots are. */
  lemma UpdateWithoutMoveSkipsCheck(db: Db, id: string, u: Updates, writeOk: bool)
    requires Find(db.reservations, ReservationKey, id).Some?
    requires Find(db.reservations, ReservationKey, id).value.status != "cancelled"
    requires (u.date.None? || u.date.value == Find(db.reservations, ReservationKey, id).value.date)
             && (u.time.None? || u.time.value == Find(db.reservations, ReservationKey, id).value.time)
             && (u.partySize.None? || u.partySize.value == Find(db.reservations, ReservationKey, id).value.partySize)
    ensures Update(db, id, u, writeOk).0 == Returned(Made(true, Apply(Find(db.reservations, ReservationKey, id).value, u)))
  {
  }

  /** Changing only the party size of a confirmed reservation is always
      refused: its own confirmed slot counts as booked, so its time is never
      among the slots `check_availability` lists. */
  lemma PartySizeOnlyUpdateRefused(db: Db, id: string, u: Updates, writeOk: bool)
    requires Find(db.reservations, ReservationKey, id).Some?
    requires Find(db.reservations, ReservationKey, id).value.status == "confirmed"
    requires u.date.None? && u.time.None?
    requires u.partySize.Some? && u.partySize.value != Find(db.reservations, ReservationKey, id).value.partySize
    ensures !(Update(db, id, u, writeOk).0.Returned? && Update(db, id, u, writeOk).0.value.Made?)
    ensures Update(db, id, u, writeOk).1 == db
  {
    var r := Find(db.reservations, ReservationKey, id).value;
    var n := Apply(r, u);
    var rid := JStr(r.restaurantId);
    var slots := AvailableSlots(db, rid, JStr(n.date), JStr(n.time), JInt(n.partySize));
    if slots.Returned? {
      assert IsConfirmedOn(r, rid, JStr(r.date));
      ConfirmedBookingBlocks(db, rid, JStr(n.date), JStr(n.time), JInt(n.partySize), r);
    }
  }

  /** Moving a reservation to a slot `check_availability` lists, or changing
      its other details, never creates a double booking, provided its status
      is not changed. */
  lemma UpdateKeepsNoDoubleBooking(db: Db, id: string, u: Updates, writeOk: bool)
    requires NoDoubleBooking(db.reservations)
    requires u.status.None?
    ensures NoDoubleBooking(Update(db, id, u, writeOk).1.reservations)
  {
    UpdateOutcomes(db, id, u, writeOk);
    var (o, after) := Update(db, id, u, writeOk);
    if o.Returned? && o.value.Made? && writeOk {
      var r := Find(db.reservations, ReservationKey, id).value;
      var n := o.value.reservation;
      UpdateKeeps(db, r, n, MovesSlot(r, u));
    }
  }

  /** Writing `n` over the stored `r` (same id) keeps the invariant when `n`
      is either checked against `check_availability` for its own slot, or
      holds no slot `r` did not hold. */
  lemma UpdateKeeps(db: Db, r: Reservation, n: Reservation, checked: bool)
    requires NoDoubleBooking(db.reservations)
    requires Find(db.reservations, ReservationKey, r.id) == Some(r) && n.id == r.id
    requires n.restaurantId == r.restaurantId
    requires checked ==>
               var slots := AvailableSlots(db, JStr(n.restaurantId), JStr(n.date), JStr(n.time), JInt(n.partySize));
               slots.Returned? && n.time in slots.value
    requires !checked ==> n.date == r.date && n.time == r.time && (n.status == Confirmed ==> r.status == Confirmed)
    ensures NoDoubleBooking(Upsert(db.reservations, ReservationKey, n))
  {
    var s := db.reservations;
    var k := IndexOf(s, ReservationKey, n.id);
    if checked {
      SlotHeldByNone(db, JStr(n.restaurantId), JStr(n.date), JStr(n.time), JInt(n.partySize), n);
    } else {
      forall j | 0 <= j < |s| && j != k ensures !SameSlot(s[j], n) {
        if j < k {
          assert !SameSlot(s[j], s[k]);
        } else {
          assert !SameSlot(s[k], s[j]);
        }
      }
    }
    UpsertKeepsNoDoubleBooking(s, n);
  }

  // ---------------------------------------------------------------- status changes

  /** The update makes a reservation that was not confirmed confirmed. */
  predicate Confirms(r: Reservation, u: Updates)
  {
    OrElse(u.status, r.status) == Confirmed && r.status != Confirmed
  }

  function Held(): Reservation
  {
    Reservation("res_1", "r1", JStr("Ann"), "2025-06-04", "19:00", 2, JNull, JNull, "pending", "2025-06-01 10:00:00")
  }
  function Rival(): Reservation
  {
    Held().(id := "res_2", status := Confirmed)
  }

  /** As written, setting the status back to "confirmed" skips the
      availability check, so a reservation that was set aside (any status
      text other than "cancelled" can be set) takes back a slot booked in
      the meantime: two confirmed reservations for 19:00. */
  lemma UpdateConfirmsIntoTakenSlot()
    ensures NoDoubleBooking([Held(), Rival()])
    ensures var (o, after) := Update(Db([], [Held(), Rival()]), "res_1",
                                     Updates(None, None, None, Some("confirmed"), None, None), true);
            o == Returned(Made(true, Held().(status := "confirmed")))
            && after.reservations == [Held().(status := "confirmed"), Rival()]
            && !NoDoubleBooking(after.reservations)
  {
    var u := Updates(None, None, None, Some("confirmed"), None, None);
    assert IndexOf([Held(), Rival()], ReservationKey, "res_1") == 0;
    assert !MovesSlot(Held(), u);
    var after := Update(Db([], [Held(), Rival()]), "res_1", u, true).1.reservations;
    assert after == [Held().(status := "confirmed"), Rival()];
    assert SameSlot(after[0], after[1]);
  }

  /** `update_reservation` with the check that keeps slots single: a
      reservation that becomes confirmed is checked like one that moves. */
  function UpdateChecked(db: Db, id: string, u: Updates, writeOk: bool): (Outcome<Booked>, Db)
  {
    match Find(db.reservations, ReservationKey, id)
    case None => (Returned(Refused(ReservationNotFound)), db)
    case Some(r) =>
      if r.status == Cancelled then (Returned(Refused(ReservationCancelled)), db)
      else if !MovesSlot(r, u) && !Confirms(r, u) then
        (Returned(Made(true, Apply(r, u))), Save(db, Apply(r, u), writeOk))
      else Recheck(db, r, Apply(r, u), writeOk)
  }

  /** The checked update differs from the original only for updates that
      confirm a reservation. */
  lemma UpdateCheckedAgrees(db: Db, id: string, u: Updates, writeOk: bool)
    requires Find(db.reservations, ReservationKey, id).None? || !Confirms(Find(db.reservations, ReservationKey, id).value, u)
    ensures UpdateChecked(db, id, u, writeOk) == Update(db, id, u, writeOk)
  {
  }

  /** The checked update never creates a double booking, whatever it changes. */
  lemma UpdateCheckedKeepsNoDoubleBooking(db: Db, id: string, u: Updates, writeOk: bool)
    requires NoDoubleBooking(db.reservations)
    ensures NoDoubleBooking(UpdateChecked(db, id, u, writeOk).1.reservations)
  {
    var (o, after) := UpdateChecked(db, id, u, writeOk);
    match Find(db.reservations, ReservationKey, id)
    case None =>
    case Some(r) =>
      var n := Apply(r, u);
      if r.status != Cancelled && o.Returned? && o.value.Made? && writeOk {
        UpdateKeeps(db, r, n, MovesSlot(r, u) || Confirms(r, u));
      }
  }

  // ---------------------------------------------------------------- cancel_reservation

  /** `cancel_reservation`: None stands for `(True, "Reservation successfully
      cancelled")`, returned once the status is set and the write attempted,
      whatever the write gives. */
  function CancelById(db: Db, id: string, writeOk: bool): (Option<Refusal>, Db)
  {
    match Find(db.reservations, ReservationKey, id)
    case None => (Some(ReservationNotFound), db)
    case Some(r) =>
      if r.status == Cancelled then (Some(AlreadyCancelled), db)
      else (None, Save(db, Cancel(r), writeOk))
  }

  /** `cancel_reservation` on the store. */
  method CancelReservation(store: DataStore, id: string, writeOk: bool) returns (refusal: Option<Refusal>)
    modifies store
    ensures refusal == CancelById(old(store.State()), id, writeOk).0
    ensures store.State() == CancelById(old(store.State()), id, writeOk).1
  {
    var found := store.GetReservation(id);
    if found.None? {
      return Some(ReservationNotFound);
    }
    var reservation := found.value;
    if reservation.status == Cancelled {
      return Some(AlreadyCancelled);
    }
    reservation := reservation.(status := Cancelled);
    var _ := store.AddReservation(reservation, writeOk);
    refusal := None;
  }

  /** A cancellation that goes through and is written leaves the stored
      reservation cancelled with every other field as it was; refusals change
      nothing. */
  lemma CancelByIdOutcomes(db: Db, id: string, writeOk: bool)
    ensures var (refusal, after) := CancelById(db, id, writeOk);
            && (Find(db.reservations, ReservationKey, id).None? ==> refusal == Some(ReservationNotFound))
            && (Find(db.reservations, ReservationKey, id).Some?
                  && Find(db.reservations, ReservationKey, id).value.status == "cancelled"
                ==> refusal == Some(AlreadyCancelled))
            && (refusal.Some? || !writeOk ==> after == db)
            && (refusal.None? && writeOk ==>
                  var r := Find(db.reservations, ReservationKey, id).value;
                  var c := Find(after.reservations, ReservationKey, id).value;
                  Find(after.reservations, ReservationKey, id).Some?
                  && c.status == "cancelled" && c == r.(status := "cancelled"))
  {
  }

  /** A second cancellation of the same reservation is refused. */
  lemma CancelTwice(db: Db, id: string)
    requires CancelById(db, id, true).0.None?
    ensures CancelById(CancelById(db, id, true).1, id, true).0 == Some(AlreadyCancelled)
  {
    var r := Find(db.reservations, ReservationKey, id).value;
    assert Find(CancelById(db, id, true).1.reservations, ReservationKey, Cancel(r).id) == Some(Cancel(r));
  }

  /** Cancelling never creates a double booking. */
  lemma CancelKeepsNoDoubleBooking(db: Db, id: string, writeOk: bool)
    requires NoDoubleBooking(db.reservations)
    ensures NoDoubleBooking(CancelById(db, id, writeOk).1.reservations)
  {
    var (refusal, after) := CancelById(db, id, writeOk);
    if refusal.None? && writeOk {
      var r := Find(db.reservations, ReservationKey, id).value;
      UpsertKeepsNoDoubleBooking(db.reservations, Cancel(r));
    }
  }
}
