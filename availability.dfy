/** `check_availability` and `suggest_alternative_times`: half-hourly slots
    from opening to closing time, minus the confirmed bookings, optionally
    narrowed to two hours either side of a requested time. */
module Availability {
  import opened Python
  import opened Clock
  import opened Restaurants
  import opened Reservations
  import opened Store
  import opened Sorting

  /** A slot as the loop counters hold it: (hour, minute). */
  type Slot = (int, int)

  function Minutes(p: Slot): int
  {
    MinuteOfDay(p.0, p.1)
  }

  function Abs(x: int): int
  {
    if x < 0 then -x else x
  }

  /** The loop guard: (h, m) comes before closing time (ch, cm). */
  predicate Before(h: int, m: int, ch: int, cm: int)
  {
    h < ch || (h == ch && m < cm)
  }

  /** `current_minute += 30`, and on reaching 60 the minute restarts at 0 in
      the next hour (not at `minute - 60`). */
  function Advance(h: int, m: int): Slot
  {
    if m + 30 >= 60 then (h + 1, 0) else (h, m + 30)
  }

  /** The counter values the slot loop visits, from (h, m) up to closing time. */
  function Cadence(h: int, m: int, ch: int, cm: int): seq<Slot>
    decreases ch - h, 60 - m
  {
    if !Before(h, m, ch, cm) then []
    else
      var n := Advance(h, m);
      [(h, m)] + Cadence(n.0, n.1, ch, cm)
  }

  /** The two slot filters of `check_availability`. */
  datatype Test = Unbooked(booked: seq<string>) | Within(target: int)

  predicate Passes(p: Slot, t: Test)
  {
    match t
    case Unbooked(booked) => SlotLabel(p.0, p.1) !in booked
    case Within(target) => Abs(Minutes(p) - target) <= 120
  }

  /** The slots of `ps` that pass `t`, in order. */
  function Keep(ps: seq<Slot>, t: Test): seq<Slot>
  {
    if ps == [] then []
    else (if Passes(ps[0], t) then [ps[0]] else []) + Keep(ps[1..], t)
  }

  /** The slots whose label is not among the booked times. */
  function Free(cs: seq<Slot>, booked: seq<string>): seq<Slot>
  {
    Keep(cs, Unbooked(booked))
  }

  /** The slots at most 120 minutes from minute `target` of the day. */
  function Near(ps: seq<Slot>, target: int): seq<Slot>
  {
    Keep(ps, Within(target))
  }

  /** The "HH:MM" text of each slot. */
  function Labels(ps: seq<Slot>): (ls: seq<string>)
    ensures |ls| == |ps|
  {
    seq(|ps|, i requires 0 <= i < |ps| => SlotLabel(ps[i].0, ps[i].1))
  }

  lemma LabelsAt(ps: seq<Slot>, i: int)
    requires 0 <= i < |ps|
    ensures Labels(ps)[i] == SlotLabel(ps[i].0, ps[i].1)
  {
  }

  /** `[r.time for r in reservations]`. */
  function Times(rs: seq<Reservation>): (ts: seq<string>)
    ensures |ts| == |rs|
    ensures forall i :: 0 <= i < |rs| ==> ts[i] == rs[i].time
  {
    seq(|rs|, i requires 0 <= i < |rs| => rs[i].time)
  }

  /** The booked times `check_availability` excludes. */
  function BookedTimes(db: Db, rid: Json, date: Json): seq<string>
  {
    Times(ConfirmedOn(db.reservations, rid, date))
  }

  /** The optional narrowing to the requested `time`: a falsy `time` or one
      that does not parse (the caught ValueError) leaves the slots alone; a
      `time` that is not text has no `split` (AttributeError). */
  function Narrow(ps: seq<Slot>, time: Json): Outcome<seq<Slot>>
  {
    if !Truthy(time) then Returned(ps)
    else if !time.JStr? then Raised(AttributeError)
    else
      match ParseClock(time.s)
      case None => Returned(ps)
      case Some(q) => Returned(Near(ps, MinuteOfDay(q.0, q.1)))
  }

  /** `check_availability`, with the slots as (hour, minute) pairs: an
      unknown restaurant has no slots; otherwise the restaurant's own checks. */
  function Availability(db: Db, rid: Json, date: Json, time: Json, party: Json): Outcome<seq<Slot>>
  {
    var found := RestaurantById(db.restaurants, rid);
    if found.None? then Returned([])
    else OpenSlots(found.value, BookedTimes(db, rid, date), date, time, party)
  }

  /** The checks on a found restaurant `r`, in source order: a truthy party
      size against capacity (TypeError when it is not a number), the opening
      hours for the date, then the slots minus `booked`, narrowed to `time`. */
  function OpenSlots(r: Restaurant, booked: seq<string>, date: Json, time: Json, party: Json): Outcome<seq<Slot>>
  {
    if Truthy(party) && !party.JInt? then Raised(TypeError)
    else if Truthy(party) && party.i > r.capacity then Returned([])
    else
      match DayHours(r, date)
      case Raised(e) => Raised(e)
      case Returned(None) => Returned([])
      case Returned(Some(span)) =>
        Narrow(Free(Cadence(span.0.0, span.0.1, span.1.0, span.1.1), booked), time)
  }

  /** Opening and closing (hour, minute) of `r` on `date`: TypeError when the
      date is not text, None when it does not parse or `r` has no hours for
      its day type, and the uncaught ValueError of `map(int, ...split(":"))`
      when the opening or closing text is not "H:M". */
  function DayHours(r: Restaurant, date: Json): Outcome<Option<(Slot, Slot)>>
  {
    if !date.JStr? then Raised(TypeError)
    else
      match ParseDate(date.s)
      case None => Returned(None)
      case Some(d) =>
        if DayType(d) !in r.hours then Returned(None)
        else
          var hours := r.hours[DayType(d)];
          match (ParseClock(hours.open), ParseClock(hours.close))
          case (Some(o), Some(c)) => Returned(Some((o, c)))
          case _ => Raised(ValueError)
  }

  /** `check_availability`: the list of "HH:MM" slot labels. */
  function AvailableSlots(db: Db, rid: Json, date: Json, time: Json, party: Json): Outcome<seq<string>>
  {
    LabelsOf(Availability(db, rid, date, time, party))
  }

  function LabelsOf(o: Outcome<seq<Slot>>): Outcome<seq<string>>
  {
    match o
    case Raised(e) => Raised(e)
    case Returned(ps) => Returned(Labels(ps))
  }

  // ---------------------------------------------------------------- the method

  lemma LabelsSnoc(ps: seq<Slot>, p: Slot)
    ensures Labels(ps + [p]) == Labels(ps) + [SlotLabel(p.0, p.1)]
  {
    forall i | 0 <= i < |ps| + 1
      ensures Labels(ps + [p])[i] == (Labels(ps) + [SlotLabel(p.0, p.1)])[i]
    {
      LabelsAt(ps + [p], i);
      if i < |ps| {
        LabelsAt(ps, i);
      }
    }
  }

  /** `check_availability` run against the store. */
  method CheckAvailability(store: DataStore, rid: Json, date: Json, time: Json, party: Json)
    returns (o: Outcome<seq<string>>)
    ensures o == AvailableSlots(store.State(), rid, date, time, party)
  {
    var found: Option<Restaurant> := None;
    if rid.JStr? {
      found := store.GetRestaurant(rid.s);
    }
    if found.None? {
      return Returned([]);
    }
    var existing := store.GetReservationsByDate(rid, date);
    o := SlotsFor(found.value, Times(existing), date, time, party);
    AvailabilityFound(store.State(), rid, date, time, party, found.value);
  }

  lemma AvailabilityFound(db: Db, rid: Json, date: Json, time: Json, party: Json, r: Restaurant)
    requires RestaurantById(db.restaurants, rid) == Some(r)
    ensures AvailableSlots(db, rid, date, time, party) == LabelsOf(OpenSlots(r, BookedTimes(db, rid, date), date, time, party))
  {
  }

  /** The part of `check_availability` after the restaurant is found. */
  method SlotsFor(r: Restaurant, booked: seq<string>, date: Json, time: Json, party: Json)
    returns (o: Outcome<seq<string>>)
    ensures o == LabelsOf(OpenSlots(r, booked, date, time, party))
  {
    if Truthy(party) {
      if !party.JInt? {
        return Raised(TypeError);
      }
      if party.i > r.capacity {
        return Returned([]);
      }
    }
    var span := DayHours(r, date);
    if span.Raised? {
      return Raised(span.exc);
    }
    if span.value.None? {
      return Returned([]);
    }
    var opening, closing := span.value.value.0, span.value.value.1;
    var slots := GenerateSlots(opening.0, opening.1, closing.0, closing.1, booked);
    ghost var kept := Free(Cadence(opening.0, opening.1, closing.0, closing.1), booked);

    // the optional window around the requested time
    if Truthy(time) {
      if !time.JStr? {
        return Raised(AttributeError);
      }
      var requested := ParseClock(time.s);
      if requested.Some? {
        slots := WithinTwoHours(slots, kept, MinuteOfDay(requested.value.0, requested.value.1));
      }
    }
    o := Returned(slots);
  }

  /** The `while` loop: a label every 30 minutes from opening to closing,
      skipping the booked ones. */
  method GenerateSlots(openHour: int, openMinute: int, closeHour: int, closeMinute: int, booked: seq<string>)
    returns (slots: seq<string>)
    ensures slots == Labels(Free(Cadence(openHour, openMinute, closeHour, closeMinute), booked))
  {
    slots := [];
    ghost var kept: seq<Slot> := [];
    ghost var all := Free(Cadence(openHour, openMinute, closeHour, closeMinute), booked);
    var hour, minute := openHour, openMinute;
    assert [] + all == all;
    while Before(hour, minute, closeHour, closeMinute)
      invariant kept + Free(Cadence(hour, minute, closeHour, closeMinute), booked) == all
      invariant Paired(slots, kept)
      decreases closeHour - hour, 60 - minute
    {
      ghost var next := Advance(hour, minute);
      slots, kept := VisitSlot(slots, kept, hour, minute, closeHour, closeMinute, booked, all);
      minute := minute + 30;
      if minute >= 60 {
        minute := 0;
        hour := hour + 1;
      }
      assert (hour, minute) == next;
    }
    GenerateDone(kept, hour, minute, closeHour, closeMinute, booked, all);
    LabelsPointwise(slots, kept);
  }

  /** The body of the slot loop before the advance: format the slot and keep
      it when it is not booked. */
  method VisitSlot(slots: seq<string>, ghost kept: seq<Slot>, hour: int, minute: int, ghost closeHour: int, ghost closeMinute: int,
               booked: seq<string>, ghost all: seq<Slot>)
    returns (slots': seq<string>, ghost kept': seq<Slot>)
    requires Before(hour, minute, closeHour, closeMinute)
    requires kept + Free(Cadence(hour, minute, closeHour, closeMinute), booked) == all
    requires Paired(slots, kept)
    ensures kept' + Free(Cadence(Advance(hour, minute).0, Advance(hour, minute).1, closeHour, closeMinute), booked) == all
    ensures Paired(slots', kept')
  {
    var timeSlot := SlotLabel(hour, minute);
    GenerateStep(kept, hour, minute, closeHour, closeMinute, booked, all);
    slots', kept' := slots, kept;
    if timeSlot !in booked {
      PairedSnoc(slots, kept, (hour, minute));
      slots' := slots + [timeSlot];
      kept' := kept + [(hour, minute)];
    }
  }

  /** `ls` holds the label of each slot of `ps`, in order. */
  ghost predicate Paired(ls: seq<string>, ps: seq<Slot>)
  {
    |ls| == |ps| && forall i :: 0 <= i < |ps| ==> ls[i] == SlotLabel(ps[i].0, ps[i].1)
  }

  lemma PairedSnoc(ls: seq<string>, ps: seq<Slot>, p: Slot)
    requires Paired(ls, ps)
    ensures Paired(ls + [SlotLabel(p.0, p.1)], ps + [p])
  {
  }

  /** One turn of the slot loop keeps its invariant. */
  lemma GenerateStep(kept: seq<Slot>, h: int, m: int, ch: int, cm: int, booked: seq<string>, all: seq<Slot>)
    requires Before(h, m, ch, cm) && kept + Free(Cadence(h, m, ch, cm), booked) == all
    ensures SlotLabel(h, m) !in booked ==>
              (kept + [(h, m)]) + Free(Cadence(Advance(h, m).0, Advance(h, m).1, ch, cm), booked) == all
    ensures SlotLabel(h, m) in booked ==>
              kept + Free(Cadence(Advance(h, m).0, Advance(h, m).1, ch, cm), booked) == all
  {
    var n := Advance(h, m);
    var rest := Free(Cadence(n.0, n.1, ch, cm), booked);
    if SlotLabel(h, m) !in booked {
      calc {
        (kept + [(h, m)]) + rest;
        kept + ([(h, m)] + rest);
        { CadenceStep(h, m, ch, cm, booked); }
        kept + Free(Cadence(h, m, ch, cm), booked);
      }
    } else {
      calc {
        kept + rest;
        { CadenceStep(h, m, ch, cm, booked); assert [] + rest == rest; }
        kept + Free(Cadence(h, m, ch, cm), booked);
      }
    }
  }

  lemma GenerateDone(kept: seq<Slot>, h: int, m: int, ch: int, cm: int, booked: seq<string>, all: seq<Slot>)
    requires !Before(h, m, ch, cm) && kept + Free(Cadence(h, m, ch, cm), booked) == all
    ensures kept == all
  {
    assert Free(Cadence(h, m, ch, cm), booked) == [];
    assert kept + [] == kept;
  }

  /** A list holding the label of each slot, in order, is their `Labels`. */
  lemma LabelsPointwise(ls: seq<string>, ps: seq<Slot>)
    requires Paired(ls, ps)
    ensures ls == Labels(ps)
  {
    forall i | 0 <= i < |ps| ensures ls[i] == Labels(ps)[i] {
      LabelsAt(ps, i);
    }
  }

  /** The filter loop: parse each slot back and keep those at most 120
      minutes from `target`. */
  method WithinTwoHours(slots: seq<string>, ghost kept: seq<Slot>, target: int) returns (filtered: seq<string>)
    requires slots == Labels(kept)
    ensures filtered == Labels(Near(kept, target))
  {
    filtered := [];
    ghost var near: seq<Slot> := [];
    var i := 0;
    while i < |slots|
      invariant 0 <= i <= |slots|
      invariant near + Near(kept[i..], target) == Near(kept, target)
      invariant filtered == Labels(near)
    {
      filtered, near := FilterSlot(filtered, near, slots, kept, i, target);
      i := i + 1;
    }
    NearDone(near, kept, target);
  }

  /** One turn of the filter loop keeps the slot at index `i` when it is at
      most 120 minutes from `target`. */
  method FilterSlot(filtered: seq<string>, ghost near: seq<Slot>, slots: seq<string>, ghost kept: seq<Slot>,
                    i: int, target: int)
    returns (filtered': seq<string>, ghost near': seq<Slot>)
    requires slots == Labels(kept) && 0 <= i < |slots| && filtered == Labels(near)
    ensures filtered' == Labels(near')
    ensures near + Near(kept[i..], target) == near' + Near(kept[i + 1..], target)
  {
    LabelsAt(kept, i);
    var slotMinutes := SlotMinutes(slots[i], kept[i]);
    NearStep(near, kept, i, target);
    filtered', near' := filtered, near;
    if Abs(slotMinutes - target) <= 120 {
      LabelsSnoc(near, kept[i]);
      filtered' := filtered + [slots[i]];
      near' := near + [kept[i]];
    }
  }

  /** `slot_hour, slot_minute = map(int, slot.split(":"))` and the minute of
      the day they name; a slot label always parses back. */
  method SlotMinutes(slot: string, ghost p: Slot) returns (minutes: int)
    requires slot == SlotLabel(p.0, p.1)
    ensures minutes == Minutes(p)
  {
    SlotLabelRoundTrip(p.0, p.1);
    var parsed := ParseClock(slot);
    minutes := MinuteOfDay(parsed.value.0, parsed.value.1);
  }

  /** One turn of the filter loop keeps its invariant. */
  lemma NearStep(near: seq<Slot>, kept: seq<Slot>, i: int, target: int)
    requires 0 <= i < |kept|
    ensures near + Near(kept[i..], target) ==
            (if Abs(Minutes(kept[i]) - target) <= 120 then near + [kept[i]] else near) + Near(kept[i + 1..], target)
  {
    var rest := Near(kept[i + 1..], target);
    assert kept[i..] == [kept[i]] + kept[i + 1..];
    NearCons(kept[i], kept[i + 1..], target);
    if Abs(Minutes(kept[i]) - target) <= 120 {
      assert near + ([kept[i]] + rest) == (near + [kept[i]]) + rest;
    } else {
      assert [] + rest == rest;
    }
  }

  lemma NearDone(near: seq<Slot>, kept: seq<Slot>, target: int)
    ensures near + Near(kept[|kept|..], target) == near
  {
    assert kept[|kept|..] == [];
    assert near + [] == near;
  }

  lemma CadenceStep(h: int, m: int, ch: int, cm: int, booked: seq<string>)
    requires Before(h, m, ch, cm)
    ensures Free(Cadence(h, m, ch, cm), booked) ==
            (if SlotLabel(h, m) !in booked then [(h, m)] else []) +
            Free(Cadence(Advance(h, m).0, Advance(h, m).1, ch, cm), booked)
  {
    var n := Advance(h, m);
    assert Cadence(h, m, ch, cm) == [(h, m)] + Cadence(n.0, n.1, ch, cm);
    FreeCons((h, m), Cadence(n.0, n.1, ch, cm), booked);
  }

  lemma FreeCons(p: Slot, cs: seq<Slot>, booked: seq<string>)
    ensures Free([p] + cs, booked) == (if SlotLabel(p.0, p.1) !in booked then [p] else []) + Free(cs, booked)
  {
    assert ([p] + cs)[1..] == cs;
  }

  lemma NearCons(p: Slot, ps: seq<Slot>, target: int)
    ensures Near([p] + ps, target) == (if Abs(Minutes(p) - target) <= 120 then [p] else []) + Near(ps, target)
  {
    assert ([p] + ps)[1..] == ps;
  }

  // ---------------------------------------------------------------- properties

  /** The four ways `check_availability` answers with no slots without raising:
      an unknown restaurant, a party too large, a date that does not parse, and
      no hours for the date's day type. */
  lemma NoSlotsCases(db: Db, rid: Json, date: Json, time: Json, party: Json)
    ensures RestaurantById(db.restaurants, rid).None? ==> Availability(db, rid, date, time, party) == Returned([])
    ensures RestaurantById(db.restaurants, rid).Some? && party.JInt? && party.i != 0
            && party.i > RestaurantById(db.restaurants, rid).value.capacity
            ==> Availability(db, rid, date, time, party) == Returned([])
    ensures RestaurantById(db.restaurants, rid).Some?
            && (!Truthy(party) || (party.JInt? && party.i <= RestaurantById(db.restaurants, rid).value.capacity))
            && date.JStr? && ParseDate(date.s).None?
            ==> Availability(db, rid, date, time, party) == Returned([])
    ensures RestaurantById(db.restaurants, rid).Some?
            && (!Truthy(party) || (party.JInt? && party.i <= RestaurantById(db.restaurants, rid).value.capacity))
            && date.JStr? && ParseDate(date.s).Some?
            && DayType(ParseDate(date.s).value) !in RestaurantById(db.restaurants, rid).value.hours
            ==> Availability(db, rid, date, time, party) == Returned([])
  {
  }

  /** Keys never repeat and grow along the list, in minutes of the day. */
  predicate Ascending(ps: seq<Slot>)
  {
    forall i, j :: 0 <= i < j < |ps| ==> Minutes(ps[i]) < Minutes(ps[j])
  }

  lemma AscendingCons(p: Slot, ps: seq<Slot>)
    requires Ascending(ps)
    requires forall q :: q in ps ==> Minutes(p) < Minutes(q)
    ensures Ascending([p] + ps)
  {
    var r := [p] + ps;
    forall i, j | 0 <= i < j < |r| ensures Minutes(r[i]) < Minutes(r[j]) {
      assert r[j] == ps[j - 1];
      if i > 0 {
        assert r[i] == ps[i - 1];
      } else {
        assert ps[j - 1] in ps;
      }
    }
  }

  /** Every visited slot has its minute in 0..59, lies at or after the
      starting point and passes the loop guard against closing time. */
  lemma {:induction false} CadenceBounds(h: int, m: int, ch: int, cm: int)
    requires 0 <= m < 60
    ensures forall p :: p in Cadence(h, m, ch, cm) ==>
              0 <= p.1 < 60 && MinuteOfDay(h, m) <= Minutes(p) && Before(p.0, p.1, ch, cm)
    decreases ch - h, 60 - m
  {
    if Before(h, m, ch, cm) {
      var n := Advance(h, m);
      CadenceBounds(n.0, n.1, ch, cm);
      assert Cadence(h, m, ch, cm) == [(h, m)] + Cadence(n.0, n.1, ch, cm);
    }
  }

  /** With a starting minute below 60 the slots strictly ascend in minutes of
      the day, even across the reset of the minute to 0. */
  lemma {:induction false} CadenceAscending(h: int, m: int, ch: int, cm: int)
    requires 0 <= m < 60
    ensures Ascending(Cadence(h, m, ch, cm))
    decreases ch - h, 60 - m
  {
    if Before(h, m, ch, cm) {
      var n := Advance(h, m);
      CadenceAscending(n.0, n.1, ch, cm);
      CadenceBounds(n.0, n.1, ch, cm);
      assert Cadence(h, m, ch, cm) == [(h, m)] + Cadence(n.0, n.1, ch, cm);
      AscendingCons((h, m), Cadence(n.0, n.1, ch, cm));
    }
  }

  /** Starting on the hour or the half hour, consecutive slots are exactly 30
      minutes apart and every slot is on the hour or the half hour. */
  lemma {:induction false} CadenceHalfHours(h: int, m: int, ch: int, cm: int)
    requires m == 0 || m == 30
    ensures forall p :: p in Cadence(h, m, ch, cm) ==> p.1 == 0 || p.1 == 30
    ensures forall i :: 0 <= i < |Cadence(h, m, ch, cm)| - 1 ==>
              Minutes(Cadence(h, m, ch, cm)[i + 1]) == Minutes(Cadence(h, m, ch, cm)[i]) + 30
    decreases ch - h, 60 - m
  {
    if Before(h, m, ch, cm) {
      var n := Advance(h, m);
      var tail := Cadence(n.0, n.1, ch, cm);
      CadenceHalfHours(n.0, n.1, ch, cm);
      assert Cadence(h, m, ch, cm) == [(h, m)] + tail;
      if tail != [] {
        assert tail[0] == n;
      }
    }
  }

  /** A starting minute of 60 or more is not normalised: from "9:75" the
      second slot, 10:00, comes before the first, 10:15. */
  lemma UnnormalisedOpeningMinute()
    ensures Cadence(9, 75, 11, 0) == [(9, 75), (10, 0), (10, 30)]
    ensures Minutes(Cadence(9, 75, 11, 0)[1]) < Minutes(Cadence(9, 75, 11, 0)[0])
  {
    assert Cadence(11, 0, 11, 0) == [];
    assert Cadence(10, 30, 11, 0) == [(10, 30)];
    assert Cadence(10, 0, 11, 0) == [(10, 0), (10, 30)];
  }

  /** What `Keep` keeps: exactly the elements that pass the test. */
  lemma {:induction false} KeepMembers(ps: seq<Slot>, t: Test)
    ensures forall p :: p in Keep(ps, t) <==> p in ps && Passes(p, t)
  {
    if ps != [] {
      KeepMembers(ps[1..], t);
      assert ps == [ps[0]] + ps[1..];
    }
  }

  /** Dropping slots keeps the rest ascending. */
  lemma {:induction false} KeepAscending(ps: seq<Slot>, t: Test)
    requires Ascending(ps)
    ensures Ascending(Keep(ps, t))
  {
    if ps != [] {
      var tail := ps[1..];
      assert Ascending(tail) by {
        forall i, j | 0 <= i < j < |tail| ensures Minutes(tail[i]) < Minutes(tail[j]) {
          assert tail[i] == ps[i + 1] && tail[j] == ps[j + 1];
        }
      }
      KeepAscending(tail, t);
      if Passes(ps[0], t) {
        KeepMembers(tail, t);
        forall q | q in Keep(tail, t) ensures Minutes(ps[0]) < Minutes(q) {
          var k :| 0 <= k < |tail| && tail[k] == q;
          assert ps[k + 1] == q;
        }
        AscendingCons(ps[0], Keep(tail, t));
      }
    }
  }

  /** The free slots of the day before any narrowing: the half-hourly slots
      from opening to closing minus the booked times, or none when the
      restaurant or its hours for the date are missing. */
  function Generated(db: Db, rid: Json, date: Json): seq<Slot>
  {
    var found := RestaurantById(db.restaurants, rid);
    if found.None? then []
    else
      match DayHours(found.value, date)
      case Returned(Some(span)) => Free(Cadence(span.0.0, span.0.1, span.1.0, span.1.1), BookedTimes(db, rid, date))
      case _ => []
  }

  /** The narrowing a parseable requested `time` applies. */
  function Narrowed(ps: seq<Slot>, time: Json): seq<Slot>
  {
    if time.JStr? && ParseClock(time.s).Some? then
      Near(ps, MinuteOfDay(ParseClock(time.s).value.0, ParseClock(time.s).value.1))
    else ps
  }

  /** Whenever `check_availability` returns, it returns nothing or the free
      slots narrowed to the requested time. */
  lemma AvailabilityResult(db: Db, rid: Json, date: Json, time: Json, party: Json)
    requires Availability(db, rid, date, time, party).Returned?
    ensures Availability(db, rid, date, time, party).value == []
            || Availability(db, rid, date, time, party).value == Narrowed(Generated(db, rid, date), time)
  {
    var found := RestaurantById(db.restaurants, rid);
    if found.Some? {
      var span := DayHours(found.value, date);
      if span.Returned? && span.value.Some? {
        var hours := span.value.value;
        var g := Free(Cadence(hours.0.0, hours.0.1, hours.1.0, hours.1.1), BookedTimes(db, rid, date));
        assert Generated(db, rid, date) == g;
        if Narrow(g, time).Returned? {
          NarrowNarrowed(g, time);
        }
      }
    }
  }

  lemma NarrowNarrowed(ps: seq<Slot>, time: Json)
    requires Narrow(ps, time).Returned?
    ensures Narrow(ps, time).value == Narrowed(ps, time)
  {
    if time.JStr? && time.s == [] {
      assert ParseClock(time.s).None?;
    }
  }

  /** A `time` that does not parse as "H:M" filters nothing: the answer is the
      one given without a time. */
  lemma UnparsedTimeIgnored(db: Db, rid: Json, date: Json, time: Json, party: Json)
    requires time.JStr? && ParseClock(time.s).None?
    ensures Availability(db, rid, date, time, party) == Availability(db, rid, date, JNull, party)
  {
  }

  /** Without a requested time, a party that fits, and hours for the date,
      the slots are exactly the visited slots whose label is not booked. */
  lemma NoTimeAllFreeSlots(db: Db, rid: Json, date: Json, party: Json, r: Restaurant, o: Slot, c: Slot)
    requires RestaurantById(db.restaurants, rid) == Some(r)
    requires !Truthy(party) || (party.JInt? && party.i <= r.capacity)
    requires DayHours(r, date) == Returned(Some((o, c)))
    ensures Availability(db, rid, date, JNull, party).Returned?
    ensures forall p :: p in Availability(db, rid, date, JNull, party).value <==>
              p in Cadence(o.0, o.1, c.0, c.1) && SlotLabel(p.0, p.1) !in BookedTimes(db, rid, date)
  {
    KeepMembers(Cadence(o.0, o.1, c.0, c.1), Unbooked(BookedTimes(db, rid, date)));
  }

  /** With an opening minute in 0..59, the slots are strictly ascending, each
      at or after opening and before closing, and none is booked. */
  lemma SlotsWithinHours(db: Db, rid: Json, date: Json, time: Json, party: Json, r: Restaurant, o: Slot, c: Slot)
    requires RestaurantById(db.restaurants, rid) == Some(r)
    requires DayHours(r, date) == Returned(Some((o, c))) && 0 <= o.1 < 60
    requires Availability(db, rid, date, time, party).Returned?
    ensures Ascending(Availability(db, rid, date, time, party).value)
    ensures forall p :: p in Availability(db, rid, date, time, party).value ==>
              Minutes(o) <= Minutes(p) && Before(p.0, p.1, c.0, c.1) && 0 <= p.1 < 60
              && (0 <= c.1 ==> Minutes(p) < Minutes(c))
              && SlotLabel(p.0, p.1) !in BookedTimes(db, rid, date)
  {
    var cs := Cadence(o.0, o.1, c.0, c.1);
    var g := Generated(db, rid, date);
    assert g == Free(cs, BookedTimes(db, rid, date));
    AvailabilityResult(db, rid, date, time, party);
    CadenceBounds(o.0, o.1, c.0, c.1);
    CadenceAscending(o.0, o.1, c.0, c.1);
    KeepMembers(cs, Unbooked(BookedTimes(db, rid, date)));
    KeepAscending(cs, Unbooked(BookedTimes(db, rid, date)));
    if time.JStr? && ParseClock(time.s).Some? {
      var t := Within(MinuteOfDay(ParseClock(time.s).value.0, ParseClock(time.s).value.1));
      KeepMembers(g, t);
      KeepAscending(g, t);
    }
  }

  /** A confirmed reservation for the restaurant and date blocks its time:
      that text is never among the listed slots. Cancelled ones do not. */
  lemma ConfirmedBookingBlocks(db: Db, rid: Json, date: Json, time: Json, party: Json, x: Reservation)
    requires x in db.reservations && IsConfirmedOn(x, rid, date)
    requires AvailableSlots(db, rid, date, time, party).Returned?
    ensures x.time !in AvailableSlots(db, rid, date, time, party).value
  {
    var ps := Availability(db, rid, date, time, party).value;
    var booked := BookedTimes(db, rid, date);
    ConfirmedOnMembers(db.reservations, rid, date);
    var listed := ConfirmedOn(db.reservations, rid, date);
    var k :| 0 <= k < |listed| && listed[k] == x;
    assert booked[k] == x.time;
    GeneratedUnbooked(db, rid, date, time, party);
    forall i | 0 <= i < |ps| ensures Labels(ps)[i] != x.time {
      LabelsAt(ps, i);
      assert ps[i] in ps;
    }
  }

  /** Every listed slot passed the booked-time filter. */
  lemma GeneratedUnbooked(db: Db, rid: Json, date: Json, time: Json, party: Json)
    requires Availability(db, rid, date, time, party).Returned?
    ensures forall p :: p in Availability(db, rid, date, time, party).value ==>
              SlotLabel(p.0, p.1) !in BookedTimes(db, rid, date)
  {
    var g := Generated(db, rid, date);
    AvailabilityResult(db, rid, date, time, party);
    var found := RestaurantById(db.restaurants, rid);
    if found.Some? && DayHours(found.value, date).Returned? && DayHours(found.value, date).value.Some? {
      var span := DayHours(found.value, date).value.value;
      KeepMembers(Cadence(span.0.0, span.0.1, span.1.0, span.1.1), Unbooked(BookedTimes(db, rid, date)));
    }
    if time.JStr? && ParseClock(time.s).Some? {
      KeepMembers(g, Within(MinuteOfDay(ParseClock(time.s).value.0, ParseClock(time.s).value.1)));
    }
  }

  /** When `time` parses, every slot is within 120 minutes of it, both ends
      included. */
  lemma SlotsNearRequestedTime(db: Db, rid: Json, date: Json, time: Json, party: Json, q: (int, int))
    requires time.JStr? && ParseClock(time.s) == Some(q)
    requires Availability(db, rid, date, time, party).Returned?
    ensures forall p :: p in Availability(db, rid, date, time, party).value ==>
              Abs(Minutes(p) - MinuteOfDay(q.0, q.1)) <= 120
  {
    AvailabilityResult(db, rid, date, time, party);
    KeepMembers(Generated(db, rid, date), Within(MinuteOfDay(q.0, q.1)));
  }

  /** Every listed slot is canonical "HH:MM" text: at least five characters
      with the colon not second, so an unpadded "9:00" is never listed. */
  lemma ListedSlotsPadded(db: Db, rid: Json, date: Json, time: Json, party: Json)
    requires AvailableSlots(db, rid, date, time, party).Returned?
    ensures forall l :: l in AvailableSlots(db, rid, date, time, party).value ==> |l| >= 5 && l[1] != ':'
  {
    var ps := Availability(db, rid, date, time, party).value;
    forall l | l in Labels(ps) ensures |l| >= 5 && l[1] != ':' {
      var i :| 0 <= i < |ps| && Labels(ps)[i] == l;
      LabelsAt(ps, i);
      SlotLabelColon(ps[i].0, ps[i].1);
    }
  }

  // ---------------------------------------------------------------- suggest_alternative_times

  function LabelKey(p: Slot): string
  {
    SlotLabel(p.0, p.1)
  }

  /** `abs(slot_minutes - preferred_minutes)`, the sort key of the ranking. */
  function Distance(target: int): Slot -> int
  {
    (p: Slot) => Abs(Minutes(p) - target)
  }

  /** `suggest_alternative_times` over the available slots `ps`: nothing when
      there are none; otherwise the requested time first when it is among
      them (`remove` takes it out of the rest), then the rest closest first
      (a stable sort), `n` in all, the slice `[:remaining]` counting from the
      end when `remaining` is negative. `time.split` raises AttributeError
      when `time` is not text; when it does not parse, the rest is taken in
      the order given. */
  function Suggest(ps: seq<Slot>, time: Json, n: int): Outcome<seq<Slot>>
  {
    if ps == [] then Returned([])
    else if !time.JStr? then Raised(AttributeError)
    else
      var i := IndexOf(ps, LabelKey, time.s);
      var first := if i < |ps| then [ps[i]] else [];
      var remaining := if i < |ps| then n - 1 else n;
      Returned(first + SliceTo(Ranked(Others(ps, i), time.s), remaining))
  }

  /** The slots other than the one at index `i` (all of them when `i` is past
      the end), in their order. */
  function Others(ps: seq<Slot>, i: nat): (rest: seq<Slot>)
    ensures i < |ps| ==> multiset(rest) + multiset{ps[i]} == multiset(ps)
    ensures i >= |ps| ==> rest == ps
    ensures Ascending(ps) ==> Ascending(rest)
  {
    if i < |ps| then
      RemoveAt(ps, i);
      ps[..i] + ps[i + 1..]
    else ps
  }

  /** The order the alternatives are offered in: closest to the requested
      time first when it parses, the given order otherwise. */
  function Ranked(rest: seq<Slot>, time: string): (r: seq<Slot>)
    ensures multiset(r) == multiset(rest)
    ensures ParseClock(time).None? ==> r == rest
  {
    match ParseClock(time)
    case None => rest
    case Some(q) => SortByKey(rest, Distance(MinuteOfDay(q.0, q.1)))
  }

  /** `suggest_alternative_times`: `check_availability` without a time, then
      the ranking. */
  function SuggestAlternativeTimes(db: Db, rid: Json, date: Json, time: Json, party: Json, n: int): Outcome<seq<string>>
  {
    match Availability(db, rid, date, JNull, party)
    case Raised(e) => Raised(e)
    case Returned(ps) => LabelsOf(Suggest(ps, time, n))
  }

  /** The requested text is found among the slots exactly when it is one of
      their labels. */
  lemma IndexOfLabel(ps: seq<Slot>, l: string)
    ensures IndexOf(ps, LabelKey, l) < |ps| <==> l in Labels(ps)
  {
    var i := IndexOf(ps, LabelKey, l);
    if i < |ps| {
      LabelsAt(ps, i);
    }
    if l in Labels(ps) {
      var k :| 0 <= k < |ps| && Labels(ps)[k] == l;
      LabelsAt(ps, k);
    }
  }

  /** Taking out one slot leaves the others, still ascending. */
  lemma RemoveAt(ps: seq<Slot>, i: nat)
    requires i < |ps|
    ensures multiset(ps[..i] + ps[i + 1..]) + multiset{ps[i]} == multiset(ps)
    ensures Ascending(ps) ==> Ascending(ps[..i] + ps[i + 1..])
  {
    assert ps == ps[..i] + [ps[i]] + ps[i + 1..];
    var rest := ps[..i] + ps[i + 1..];
    if Ascending(ps) {
      forall a, b | 0 <= a < b < |rest| ensures Minutes(rest[a]) < Minutes(rest[b]) {
        var a' := if a < i then a else a + 1;
        var b' := if b < i then b else b + 1;
        assert rest[a] == ps[a'] && rest[b] == ps[b'];
      }
    }
  }

  /** A prefix keeps a sub-multiset. */
  lemma PrefixMultiset<T>(s: seq<T>, k: nat)
    requires k <= |s|
    ensures multiset(s[..k]) <= multiset(s)
  {
    assert s == s[..k] + s[k..];
  }

  /** With at least one alternative asked for, at most `n` slots come back,
      each drawn from the available ones and none twice. */
  lemma SuggestBounded(ps: seq<Slot>, time: Json, n: int)
    requires Suggest(ps, time, n).Returned?
    ensures multiset(Suggest(ps, time, n).value) <= multiset(ps)
    ensures n >= 1 ==> |Suggest(ps, time, n).value| <= n
  {
    if ps != [] {
      var i := IndexOf(ps, LabelKey, time.s);
      var remaining := if i < |ps| then n - 1 else n;
      var pool := Ranked(Others(ps, i), time.s);
      var taken := SliceTo(pool, remaining);
      PrefixMultiset(pool, |taken|);
    }
  }

  /** No slot is suggested twice when the available slots ascend. */
  lemma SuggestDistinct(ps: seq<Slot>, time: Json, n: int)
    requires Ascending(ps) && Suggest(ps, time, n).Returned?
    ensures forall i, j :: 0 <= i < j < |Suggest(ps, time, n).value| ==>
              Suggest(ps, time, n).value[i] != Suggest(ps, time, n).value[j]
  {
    SuggestBounded(ps, time, n);
    var out := Suggest(ps, time, n).value;
    forall i, j | 0 <= i < j < |out| ensures out[i] != out[j] {
      if out[i] == out[j] {
        TwiceInMultiset(out, i, j);
        AscendingOnce(ps, out[i]);
      }
    }
  }

  lemma TwiceInMultiset<T>(s: seq<T>, i: nat, j: nat)
    requires i < j < |s| && s[i] == s[j]
    ensures multiset(s)[s[i]] >= 2
  {
    assert s == s[..i] + [s[i]] + s[i + 1..j] + [s[j]] + s[j + 1..];
  }

  /** An ascending list holds each slot at most once. */
  lemma {:induction false} AscendingOnce(ps: seq<Slot>, p: Slot)
    requires Ascending(ps)
    ensures multiset(ps)[p] <= 1
  {
    if ps != [] {
      var tail := ps[1..];
      assert ps == [ps[0]] + tail;
      assert Ascending(tail) by {
        forall a, b | 0 <= a < b < |tail| ensures Minutes(tail[a]) < Minutes(tail[b]) {
          assert tail[a] == ps[a + 1] && tail[b] == ps[b + 1];
        }
      }
      AscendingOnce(tail, p);
      forall k | 0 <= k < |tail| ensures tail[k] != ps[0] {
        assert tail[k] == ps[k + 1];
      }
    }
  }

  /** The requested time, when available, is suggested first. */
  lemma PreferredTimeFirst(db: Db, rid: Json, date: Json, time: Json, party: Json, n: int)
    requires AvailableSlots(db, rid, date, JNull, party).Returned?
    requires time.JStr? && time.s in AvailableSlots(db, rid, date, JNull, party).value
    ensures SuggestAlternativeTimes(db, rid, date, time, party, n).Returned?
    ensures |SuggestAlternativeTimes(db, rid, date, time, party, n).value| >= 1
    ensures SuggestAlternativeTimes(db, rid, date, time, party, n).value[0] == time.s
  {
    var ps := Availability(db, rid, date, JNull, party).value;
    IndexOfLabel(ps, time.s);
    var out := Suggest(ps, time, n).value;
    LabelsAt(out, 0);
  }

  /** With a parseable requested time, the suggestions after the requested
      one are ordered by distance from it, and equally distant slots by time
      of day: the stable sort keeps the ascending order of the slots. */
  lemma SuggestRanked(ps: seq<Slot>, time: Json, n: int, q: (int, int))
    requires Ascending(ps) && ps != []
    requires time.JStr? && ParseClock(time.s) == Some(q)
    ensures Suggest(ps, time, n).Returned?
    ensures var k := if time.s in Labels(ps) then 1 else 0;
            k <= |Suggest(ps, time, n).value|
            && SortedThenBy(Suggest(ps, time, n).value[k..], Distance(MinuteOfDay(q.0, q.1)), Minutes)
  {
    var i := IndexOf(ps, LabelKey, time.s);
    assert (time.s in Labels(ps)) == (i < |ps|) by {
      IndexOfLabel(ps, time.s);
    }
    var rest := Others(ps, i);
    var key := Distance(MinuteOfDay(q.0, q.1));
    assert Ranked(rest, time.s) == SortByKey(rest, key);
    RankedPart(rest, key, if i < |ps| then n - 1 else n);
    SuggestTail(ps, time, n);
  }

  /** After the requested time, when it was found, come the alternatives: a
      sub-multiset of the available slots with the requested one taken out,
      as many of them as the remaining count allows (Python's `[:remaining]`,
      which counts from the end when `remaining` is negative). */
  lemma SuggestTail(ps: seq<Slot>, time: Json, n: int)
    requires ps != [] && time.JStr?
    ensures Suggest(ps, time, n).Returned?
    ensures var found := time.s in Labels(ps);
            var k := if found then 1 else 0;
            var rem := n - k;
            var avail := |ps| - k;
            var tail := Suggest(ps, time, n).value[k..];
            k <= |Suggest(ps, time, n).value|
            && multiset(tail) + multiset(Suggest(ps, time, n).value[..k]) <= multiset(ps)
            && |tail| == (if rem >= avail then avail else if rem >= 0 then rem
                          else if avail + rem >= 0 then avail + rem else 0)
  {
    var i := IndexOf(ps, LabelKey, time.s);
    assert (time.s in Labels(ps)) == (i < |ps|) by {
      IndexOfLabel(ps, time.s);
    }
    var first := if i < |ps| then [ps[i]] else [];
    var rest := Others(ps, i);
    var ranked := Ranked(rest, time.s);
    var taken := SliceTo(ranked, if i < |ps| then n - 1 else n);
    var out := first + taken;
    assert Suggest(ps, time, n) == Returned(out);
    assert out[|first|..] == taken && out[..|first|] == first;
    PrefixMultiset(ranked, |taken|);
    assert multiset(taken) <= multiset(rest);
    assert |rest| == |ps| - |first| by {
      assert |multiset(rest)| + |first| == |multiset(ps)|;
    }
  }

  /** The ranked part: a prefix of the remaining slots sorted by `key`, ties
      by time of day. */
  lemma RankedPart(rest: seq<Slot>, key: Slot -> int, r: int)
    requires Ascending(rest)
    ensures SortedThenBy(SliceTo(SortByKey(rest, key), r), key, Minutes)
  {
    assert Ascends(rest, Minutes) by {
      forall a, b | 0 <= a < b < |rest| ensures Minutes(rest[a]) < Minutes(rest[b]) {
      }
    }
    SortByKeyTies(rest, key, Minutes);
    var sorted := SortByKey(rest, key);
    SortedThenByPrefix(sorted, key, Minutes, |SliceTo(sorted, r)|);
  }

  /** A requested time that does not parse is never a slot label, so the
      answer is simply the first `n` available slots. */
  lemma SuggestUnparsedTime(ps: seq<Slot>, time: Json, n: int)
    requires ps != [] && time.JStr? && ParseClock(time.s).None?
    ensures Suggest(ps, time, n) == Returned(SliceTo(ps, n))
  {
    forall k | 0 <= k < |ps| ensures Labels(ps)[k] != time.s {
      LabelsAt(ps, k);
      SlotLabelRoundTrip(ps[k].0, ps[k].1);
    }
    IndexOfLabel(ps, time.s);
    assert [] + SliceTo(ps, n) == SliceTo(ps, n);
  }
}
