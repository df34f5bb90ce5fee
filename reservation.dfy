/** The reservation record: construction with its defaults, the dict form it
    is stored in, and `cancel`. */
module Reservations {
  import opened Python

  const Confirmed: string := "confirmed"
  const Cancelled: string := "cancelled"

  /** A reservation. The customer's name, email and phone are stored as the
      tool call supplied them (any JSON value, None when absent); `date` is
      "YYYY-MM-DD" and `time` "HH:MM" text; `createdAt` is the
      "%Y-%m-%d %H:%M:%S" clock reading taken when the record was built. */
  datatype Reservation = Reservation(
    id: string,
    restaurantId: string,
    customerName: Json,
    date: string,
    time: string,
    partySize: int,
    email: Json,
    phone: Json,
    status: string,
    createdAt: string)

  /** `Reservation(...)`: email and phone default to None and the status to
      "confirmed"; `now` is the clock reading `datetime.now()` gives. */
  function NewReservation(id: string, restaurantId: string, customerName: Json, date: string,
                          time: string, partySize: int, now: string,
                          email: Json := JNull, phone: Json := JNull,
                          status: string := Confirmed): (r: Reservation)
    ensures r.id == id && r.restaurantId == restaurantId && r.customerName == customerName
    ensures r.date == date && r.time == time && r.partySize == partySize
    ensures r.email == email && r.phone == phone && r.status == status && r.createdAt == now
  {
    Reservation(id, restaurantId, customerName, date, time, partySize, email, phone, status, now)
  }

  /** Built without a status, a reservation is confirmed and has no email or phone. */
  lemma NewReservationDefaults(id: string, restaurantId: string, customerName: Json, date: string,
                               time: string, partySize: int, now: string)
    ensures NewReservation(id, restaurantId, customerName, date, time, partySize, now).status == "confirmed"
    ensures NewReservation(id, restaurantId, customerName, date, time, partySize, now).email == JNull
    ensures NewReservation(id, restaurantId, customerName, date, time, partySize, now).phone == JNull
  {
  }

  // ---------------------------------------------------------------- dict form

  /** `to_dict`: the ten fields under their snake_case keys. */
  function ToDict(r: Reservation): map<string, Json>
  {
    map["id" := JStr(r.id), "restaurant_id" := JStr(r.restaurantId),
        "customer_name" := r.customerName, "date" := JStr(r.date), "time" := JStr(r.time),
        "party_size" := JInt(r.partySize), "email" := r.email, "phone" := r.phone,
        "status" := JStr(r.status), "created_at" := JStr(r.createdAt)]
  }

  /** The keys `from_dict` reads with `data[...]` are present with values of the
      modelled types, and the optional status and creation time are text. */
  predicate WellTyped(d: map<string, Json>)
  {
    "id" in d && d["id"].JStr? && "restaurant_id" in d && d["restaurant_id"].JStr?
    && "customer_name" in d && "date" in d && d["date"].JStr? && "time" in d && d["time"].JStr?
    && "party_size" in d && d["party_size"].JInt?
    && ("status" in d ==> d["status"].JStr?) && ("created_at" in d ==> d["created_at"].JStr?)
  }

  /** `from_dict(data)`: builds the record (stamping it with `now`), then
      overwrites the creation time with the stored one when there is one.
      None stands for a failed load: the KeyError of a missing required key
      and also, since the record's fields are typed here, a key holding a value
      of another type, which Python would store unchecked. */
  function FromDict(d: map<string, Json>, now: string): (r: Option<Reservation>)
    ensures r.Some? <==> WellTyped(d)
  {
    if !WellTyped(d) then None
    else
      var status := if "status" in d then d["status"].s else Confirmed;
      var built := NewReservation(d["id"].s, d["restaurant_id"].s, d["customer_name"], d["date"].s,
                                  d["time"].s, d["party_size"].i, now,
                                  Get(d, "email"), Get(d, "phone"), status);
      Some(built.(createdAt := if "created_at" in d then d["created_at"].s else built.createdAt))
  }

  /** `from_dict(to_dict(r))` gives back every field, the creation time included,
      whatever the clock reads at the time. */
  lemma FromDictToDict(r: Reservation, now: string)
    ensures FromDict(ToDict(r), now) == Some(r)
  {
  }

  /** A stored reservation without status, email, phone or creation time comes
      back confirmed, with no email or phone, stamped with the current clock. */
  lemma FromDictDefaults(d: map<string, Json>, now: string)
    requires WellTyped(d)
    requires "status" !in d && "email" !in d && "phone" !in d && "created_at" !in d
    ensures FromDict(d, now).Some?
    ensures FromDict(d, now).value.status == "confirmed"
    ensures FromDict(d, now).value.email == JNull && FromDict(d, now).value.phone == JNull
    ensures FromDict(d, now).value.createdAt == now
  {
  }

  /** A stored creation time always wins over the clock. */
  lemma FromDictKeepsCreatedAt(d: map<string, Json>, now: string)
    requires WellTyped(d) && "created_at" in d
    ensures FromDict(d, now).Some? && FromDict(d, now).value.createdAt == d["created_at"].s
  {
  }

  // ---------------------------------------------------------------- cancel

  /** `cancel()`: the status becomes "cancelled"; the record returned is the
      same reservation with every other field as it was. */
  function Cancel(r: Reservation): (c: Reservation)
    ensures c.status == "cancelled"
    ensures c.id == r.id && c.restaurantId == r.restaurantId && c.customerName == r.customerName
    ensures c.date == r.date && c.time == r.time && c.partySize == r.partySize
    ensures c.email == r.email && c.phone == r.phone && c.createdAt == r.createdAt
  {
    r.(status := Cancelled)
  }

  /** Cancelling twice is cancelling once. */
  lemma CancelIdempotent(r: Reservation)
    ensures Cancel(Cancel(r)) == Cancel(r)
  {
  }
}
