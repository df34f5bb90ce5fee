/** The restaurant record: its fields, the default opening hours, the dict
    form it is stored in, and the `is_open_at` check. */
module Restaurants {
  import opened Python
  import opened Clock

  /** Opening hours of one day class ("weekday" or "weekend"), as "HH:MM" text. */
  datatype Hours = Hours(open: string, close: string)

  /** A restaurant. `capacity` is the largest party it seats, `priceRange` the
      number of `$` (1-4), `rating` the star rating in tenths of a star
      (4.5 stars is 45), `hours` the table from day class to opening hours. */
  datatype Restaurant = Restaurant(
    id: string,
    name: string,
    cuisine: string,
    location: string,
    capacity: int,
    priceRange: int,
    rating: int,
    description: string,
    hours: map<string, Hours>)

  /** The hours a restaurant gets when it is built without any. */
  const DefaultHours: map<string, Hours> :=
    map["weekday" := Hours("11:00", "22:00"), "weekend" := Hours("10:00", "23:00")]

  /** `Restaurant(...)`: `hours or {...}` replaces missing or empty hours by the
      default table, so a built restaurant always has some hours. */
  function NewRestaurant(id: string, name: string, cuisine: string, location: string,
                         capacity: int, priceRange: int, rating: int, description: string,
                         hours: Option<map<string, Hours>> := None): (r: Restaurant)
    ensures r.hours != map[]
    ensures hours.Some? && hours.value != map[] ==> r.hours == hours.value
    ensures hours.None? || hours.value == map[] ==>
              "weekday" in r.hours && r.hours["weekday"] == Hours("11:00", "22:00")
              && "weekend" in r.hours && r.hours["weekend"] == Hours("10:00", "23:00")
    ensures r.(hours := map[]) == Restaurant(id, name, cuisine, location, capacity, priceRange, rating, description, map[])
  {
    var table := if hours.Some? && hours.value != map[] then hours.value else DefaultHours;
    assert "weekday" in DefaultHours;
    Restaurant(id, name, cuisine, location, capacity, priceRange, rating, description, table)
  }

  // ---------------------------------------------------------------- dict form

  function HoursToJson(h: map<string, Hours>): Json
  {
    JObj(map k | k in h :: JObj(map["open" := JStr(h[k].open), "close" := JStr(h[k].close)]))
  }

  /** One `{"open": ..., "close": ...}` entry of a stored hours table. */
  predicate IsHoursJson(j: Json)
  {
    j.JObj? && "open" in j.fields && j.fields["open"].JStr?
    && "close" in j.fields && j.fields["close"].JStr?
  }

  /** Reads back an hours table; None when it is not a table of open/close strings. */
  function JsonToHours(j: Json): Option<map<string, Hours>>
  {
    if j.JObj? && forall k :: k in j.fields ==> IsHoursJson(j.fields[k]) then
      Some(map k | k in j.fields :: Hours(j.fields[k].fields["open"].s, j.fields[k].fields["close"].s))
    else None
  }

  /** `to_dict`: the nine fields under their snake_case keys. */
  function ToDict(r: Restaurant): map<string, Json>
  {
    map["id" := JStr(r.id), "name" := JStr(r.name), "cuisine" := JStr(r.cuisine),
        "location" := JStr(r.location), "capacity" := JInt(r.capacity),
        "price_range" := JInt(r.priceRange), "rating" := JInt(r.rating),
        "description" := JStr(r.description), "hours" := HoursToJson(r.hours)]
  }

  predicate HasStr(d: map<string, Json>, k: string)
  {
    k in d && d[k].JStr?
  }

  predicate HasInt(d: map<string, Json>, k: string)
  {
    k in d && d[k].JInt?
  }

  /** The eight keys `from_dict` reads with `data[...]` are present with values
      of the modelled types. */
  predicate HasRequiredKeys(d: map<string, Json>)
  {
    HasStr(d, "id") && HasStr(d, "name") && HasStr(d, "cuisine") && HasStr(d, "location")
    && HasInt(d, "capacity") && HasInt(d, "price_range") && HasInt(d, "rating")
    && HasStr(d, "description")
  }

  /** `from_dict`: None stands for a failed load, which is the KeyError of a
      missing required key and also, since the record's fields are typed here,
      a required key or an hours entry holding a value of another type (Python
      stores such a value unchecked); `hours` is optional and a falsy value
      selects the default table. */
  function FromDict(d: map<string, Json>): Option<Restaurant>
  {
    if !HasRequiredKeys(d) then None
    else
      var h := Get(d, "hours");
      var table := if Truthy(h) then JsonToHours(h) else Some(map[]);
      if table.None? then None
      else
        Some(NewRestaurant(d["id"].s, d["name"].s, d["cuisine"].s, d["location"].s,
                           d["capacity"].i, d["price_range"].i, d["rating"].i,
                           d["description"].s, Some(table.value)))
  }

  /** `from_dict(to_dict(r))` reproduces all nine fields of a built restaurant. */
  lemma FromDictToDict(r: Restaurant)
    requires r.hours != map[]
    ensures FromDict(ToDict(r)) == Some(r)
  {
    var d := ToDict(r);
    assert HasRequiredKeys(d);
    assert Get(d, "hours") == HoursToJson(r.hours);
    HoursRoundTrip(r.hours);
  }

  /** A non-empty hours table is stored as a truthy object and read back unchanged. */
  lemma HoursRoundTrip(h: map<string, Hours>)
    requires h != map[]
    ensures Truthy(HoursToJson(h)) && JsonToHours(HoursToJson(h)) == Some(h)
  {
    var j := HoursToJson(h);
    var some :| some in h;
    assert some in j.fields;
    forall k | k in j.fields ensures IsHoursJson(j.fields[k]) {
    }
    var back := JsonToHours(j);
    assert back.Some?;
    assert back.value == h;
  }

  /** A stored restaurant without an "hours" key comes back with the default hours. */
  lemma FromDictWithoutHours(d: map<string, Json>)
    requires HasRequiredKeys(d) && "hours" !in d
    ensures FromDict(d).Some?
    ensures FromDict(d).value.hours["weekday"] == Hours("11:00", "22:00")
    ensures FromDict(d).value.hours["weekend"] == Hours("10:00", "23:00")
  {
  }

  // ---------------------------------------------------------------- is_open_at

  /** `is_open_at(day_type, time)` as written: the fallback `self.hours["weekday"]`
      is evaluated before `get` runs, so a table without "weekday" raises
      KeyError; then `open <= time <= close` compares the strings. */
  function IsOpenAt(r: Restaurant, dayType: string, time: string): (o: Outcome<bool>)
    ensures o.Raised? <==> "weekday" !in r.hours
    ensures "weekday" in r.hours && dayType !in r.hours ==>
              o == Returned(LexLe(r.hours["weekday"].open, time) && LexLe(time, r.hours["weekday"].close))
    ensures "weekday" in r.hours && dayType in r.hours ==>
              o == Returned(LexLe(r.hours[dayType].open, time) && LexLe(time, r.hours[dayType].close))
  {
    if "weekday" !in r.hours then Raised(KeyError)
    else
      var day := if dayType in r.hours then r.hours[dayType] else r.hours["weekday"];
      Returned(LexLe(day.open, time) && LexLe(time, day.close))
  }

  /** On canonical "HH:MM" text the check is inclusive at both ends in minutes
      of the day. */
  lemma IsOpenAtInclusive(r: Restaurant, dayType: string, time: string)
    requires "weekday" in r.hours && dayType in r.hours
    requires ZeroPadded(r.hours[dayType].open) && ZeroPadded(r.hours[dayType].close) && ZeroPadded(time)
    ensures IsOpenAt(r, dayType, time) ==
              Returned(PaddedMinutes(r.hours[dayType].open) <= PaddedMinutes(time) <= PaddedMinutes(r.hours[dayType].close))
  {
    PaddedOrder(r.hours[dayType].open, time);
    PaddedOrder(time, r.hours[dayType].close);
  }

  /** A restaurant whose weekend opens at "8:00", the unpadded form sample data
      produces. */
  function EarlyWeekend(): Restaurant
  {
    Restaurant("r", "n", "c", "l", 4, 1, 40, "d",
               map["weekday" := Hours("10:00", "22:00"), "weekend" := Hours("8:00", "22:00")])
  }

  /** At "09:00" on a weekend the "8:00" restaurant is reported closed, since
      "8" sorts after "0". */
  lemma IsOpenAtUnpaddedOpening()
    ensures IsOpenAt(EarlyWeekend(), "weekend", "09:00") == Returned(false)
  {
    assert EarlyWeekend().hours["weekend"].open == "8:00";
    assert !LexLt("8:00", "09:00");
  }
  /** The check compared in minutes of the day: `open`, `time` and `close` are
      parsed as "H:M" (ValueError when one does not parse). */
  function IsOpenAtByClock(r: Restaurant, dayType: string, time: string): (o: Outcome<bool>)
    ensures "weekday" !in r.hours ==> o == Raised(KeyError)
  {
    if "weekday" !in r.hours then Raised(KeyError)
    else
      var day := if dayType in r.hours then r.hours[dayType] else r.hours["weekday"];
      match (ParseClock(day.open), ParseClock(time), ParseClock(day.close))
      case (Some(o), Some(t), Some(c)) =>
        Returned(MinuteOfDay(o.0, o.1) <= MinuteOfDay(t.0, t.1) <= MinuteOfDay(c.0, c.1))
      case _ => Raised(ValueError)
  }

  /** On canonical text the corrected check answers exactly as the original. */
  lemma IsOpenAtByClockAgrees(r: Restaurant, dayType: string, time: string)
    requires "weekday" in r.hours && dayType in r.hours
    requires ZeroPadded(r.hours[dayType].open) && ZeroPadded(r.hours[dayType].close) && ZeroPadded(time)
    ensures IsOpenAtByClock(r, dayType, time) == IsOpenAt(r, dayType, time)
  {
    IsOpenAtInclusive(r, dayType, time);
    PaddedParses(r.hours[dayType].open);
    PaddedParses(r.hours[dayType].close);
    PaddedParses(time);
  }

  /** The corrected check reports the "8:00" restaurant open at "09:00". */
  lemma IsOpenAtByClockUnpaddedOpening()
    ensures IsOpenAtByClock(EarlyWeekend(), "weekend", "09:00") == Returned(true)
  {
    var day := EarlyWeekend().hours["weekend"];
    assert day == Hours("8:00", "22:00");
    PaddedParses("09:00");
    PaddedParses("22:00");
    UnpaddedEightParses();
    assert ParseClock("09:00") == Some((9, 0));
    assert ParseClock("22:00") == Some((22, 0));
  }

  lemma UnpaddedEightParses()
    ensures ParseClock("8:00") == Some((8, 0))
  {
    assert "8:00" == "8" + [':'] + "00";
    SplitAt("8", ':', "00");
    SplitWithout("00", ':');
    assert "8"[..0] == [] && "00"[..1] == "0" && "0"[..0] == [];
  }
}
