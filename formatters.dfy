/** `utils/formatters.py`: the texts the tools send back to the user: the
    12-hour clock, the list of matching restaurants, one restaurant's
    details, the free slots grouped by hour, and the booking confirmation. */
module Formatters {
  import opened Python
  import opened Clock
  import opened Sorting
  import opened Restaurants
  import opened Reservations

  // ---------------------------------------------------------------- format_time

  /** `format_time`: "H:M" in 24-hour form becomes "h:MM AM" or "h:MM PM";
      anything `map(int, s.split(":"))` cannot read into two numbers is
      returned as it came. */
  function FormatTime(t: string): string
  {
    match ParseClock(t)
    case None => t
    case Some((h, m)) => FormatClock(h, m)
  }

  /** The 12-hour text of hour `h` and minute `m`. */
  function FormatClock(h: int, m: int): string
  {
    var period := if h < 12 then "AM" else "PM";
    var shown := if h <= 12 then h else h - 12;
    IntToString(if shown == 0 then 12 else shown) + ":" + Pad2(m) + " " + period
  }

  /** The 12-hour reading of each hour of the day: 0 is 12 AM, 1 to 11 are
      AM, 12 is 12 PM and 13 to 23 are 1 to 11 PM. */
  lemma FormatClockHours(h: int, m: int)
    requires 0 <= h < 24
    ensures var r := FormatClock(h, m);
            && (h == 0 ==> r == IntToString(12) + ":" + Pad2(m) + " " + "AM")
            && (1 <= h < 12 ==> r == IntToString(h) + ":" + Pad2(m) + " " + "AM")
            && (h == 12 ==> r == IntToString(12) + ":" + Pad2(m) + " " + "PM")
            && (12 < h ==> r == IntToString(h - 12) + ":" + Pad2(m) + " " + "PM")
  {
  }

  /** Text that does not read as "H:M" comes back unchanged. */
  lemma FormatTimeUnreadable(t: string)
    requires ParseClock(t).None?
    ensures FormatTime(t) == t
  {
  }

  /** Reads "h:MM AM" / "h:MM PM" back into the hour of the day and the minute. */
  function ReadTwelveHour(s: string): Option<(int, int)>
  {
    var parts := Split(s, ' ');
    if |parts| != 2 || (parts[1] != "AM" && parts[1] != "PM") then None
    else
      match ParseClock(parts[0])
      case None => None
      case Some((h, m)) =>
        if h < 1 || 12 < h then None
        else Some(((if h == 12 then 0 else h) + (if parts[1] == "PM" then 12 else 0), m))
  }

  /** Nothing is lost: the 12-hour text of a time of day reads back as the
      hour and minute the 24-hour text gave. */
  lemma FormatTimeRoundTrip(t: string)
    requires ParseClock(t).Some?
    requires 0 <= ParseClock(t).value.0 < 24 && 0 <= ParseClock(t).value.1
    ensures ReadTwelveHour(FormatTime(t)) == ParseClock(t)
  {
    var (h, m) := ParseClock(t).value;
    var shown := if h <= 12 then h else h - 12;
    var hour := if shown == 0 then 12 else shown;
    var period := if h < 12 then "AM" else "PM";
    ClockSplits(hour, m, period);
  }

  /** Splitting "h:MM P" at the space, then at the colon. */
  lemma ClockSplits(hour: nat, m: nat, period: string)
    requires period == "AM" || period == "PM"
    ensures var clock := IntToString(hour) + ":" + Pad2(m);
            && Split(clock + " " + period, ' ') == [clock, period]
            && ParseClock(clock) == Some((hour, m))
  {
    ClockParses(hour, m);
    SpaceSplit(IntToString(hour) + ":" + Pad2(m), period);
  }

  lemma SpaceSplit(clock: string, period: string)
    requires period == "AM" || period == "PM"
    requires ' ' !in clock
    ensures Split(clock + " " + period, ' ') == [clock, period]
  {
    assert clock + " " + period == clock + [' '] + period;
    assert ' ' !in period;
    SplitAt(clock, ' ', period);
    SplitWithout(period, ' ');
  }

  lemma ClockParses(hour: nat, m: nat)
    ensures ' ' !in IntToString(hour) + ":" + Pad2(m)
    ensures ParseClock(IntToString(hour) + ":" + Pad2(m)) == Some((hour, m))
  {
    NatToStringDigits(hour);
    DigitsLack(NatToString(hour), ' ');
    PaddedDigits(m);
    DigitsLack(Pad2(m), ' ');
    SplitAt(IntToString(hour), ':', Pad2(m));
    SplitWithout(Pad2(m), ':');
    IntToStringRoundTrip(hour);
    Pad2RoundTrip(m);
  }

  lemma DigitsLack(s: string, c: char)
    requires AllDigits(s) && !IsDigit(c)
    ensures c !in s
  {
    forall i | 0 <= i < |s| ensures s[i] != c {
      assert IsDigit(s[i]);
    }
  }

  lemma PaddedDigits(m: nat)
    ensures AllDigits(Pad2(m))
  {
    if m < 10 {
      LeadingZero(NatToString(m));
    }
  }

  /** Half past midnight reads "12:30 AM". */
  lemma HalfPastMidnight()
    ensures FormatClock(0, 30) == "12:30 AM"
  {
    assert NatToString(1) == "1";
    assert Pad2(30) == "30";
  }

  // ---------------------------------------------------------------- format_available_times

  /** `int(t.split(':')[0])`: the hour a slot is grouped under (`split`
      always yields a first field, so only `int` can fail). */
  function HourOf(t: string): Option<int>
  {
    ParseInt(Split(t, ':')[0])
  }

  /** Every time has an hour `int` can read. */
  predicate HoursRead(ts: seq<string>)
  {
    forall k :: 0 <= k < |ts| ==> HourOf(ts[k]).Some?
  }

  /** The keys of `hour_groups` in the order they were inserted: each hour
      once, where it first occurs. */
  function Hours(ts: seq<string>): (hs: seq<int>)
    requires HoursRead(ts)
  {
    if ts == [] then []
    else
      var hs := Hours(ts[..|ts| - 1]);
      var h := HourOf(ts[|ts| - 1]).value;
      if h in hs then hs else hs + [h]
  }

  /** `hour_groups[h]`: the times of hour `h`, in input order. */
  function Group(ts: seq<string>, h: int): seq<string>
  {
    if ts == [] then []
    else Group(ts[..|ts| - 1], h) + (if HourOf(ts[|ts| - 1]) == Some(h) then [ts[|ts| - 1]] else [])
  }

  function Ident(h: int): int
  {
    h
  }

  /** The 12-hour text of one slot as a line shows it: the hour is taken
      from the slot, made 12-hour by subtracting 12 from 13 and above (so
      hour 0 stays 0), the minute text is copied; a slot without a colon has
      no minute field and raises IndexError. */
  function Display(t: string): Outcome<string>
  {
    var parts := Split(t, ':');
    match ParseInt(parts[0])
    case None => Raised(ValueError)
    case Some(h) =>
      if |parts| < 2 then Raised(IndexError)
      else Returned(SlotText(h, parts[1]))
  }

  /** `f"{h if h <= 12 else h-12}:{minute} {'AM' if h < 12 else 'PM'}"`. */
  function SlotText(h: int, minute: string): string
  {
    IntToString(if h <= 12 then h else h - 12) + ":" + minute + " " + (if h < 12 then "AM" else "PM")
  }

  /** A list comprehension whose elements may raise: the first exception,
      or every value in order. */
  function All<T>(xs: seq<Outcome<T>>): Outcome<seq<T>>
  {
    if xs == [] then Returned([])
    else
      match All(xs[..|xs| - 1])
      case Raised(e) => Raised(e)
      case Returned(vs) =>
        match xs[|xs| - 1]
        case Raised(e) => Raised(e)
        case Returned(v) => Returned(vs + [v])
  }

  /** The comprehension over one group. */
  function Displays(ts: seq<string>): Outcome<seq<string>>
  {
    All(seq(|ts|, k requires 0 <= k < |ts| => Display(ts[k])))
  }

  /** The line for one hour's group: its slots sorted as text, shown in
      12-hour form, joined by ", ". */
  function LineOf(g: seq<string>): Outcome<string>
  {
    match Displays(SortText(g))
    case Raised(e) => Raised(e)
    case Returned(ds) => Returned("- " + Join(ds, ", ") + "\n")
  }

  /** The line of each hour of `hs`, in that order. */
  function Lines(hs: seq<int>, ts: seq<string>): (ls: seq<Outcome<string>>)
    ensures |ls| == |hs| && forall j :: 0 <= j < |hs| ==> ls[j] == LineOf(Group(ts, hs[j]))
  {
    seq(|hs|, j requires 0 <= j < |hs| => LineOf(Group(ts, hs[j])))
  }

  /** Appending outcomes one after the other: the first one that raised, or
      all the texts in order. */
  function Collect(xs: seq<Outcome<string>>): Outcome<string>
  {
    if xs == [] then Returned("")
    else
      match Collect(xs[..|xs| - 1])
      case Raised(e) => Raised(e)
      case Returned(s) =>
        match xs[|xs| - 1]
        case Raised(e) => Raised(e)
        case Returned(x) => Returned(s + x)
  }

  /** The lines for the hours `hs`. */
  function LinesText(hs: seq<int>, ts: seq<string>): Outcome<string>
  {
    Collect(Lines(hs, ts))
  }

  function NoSlotsText(date: string): string
  {
    NoSlotsOpening + date + "."
  }

  const NoSlotsOpening: string := "I'm sorry, there are no available time slots for "

  function SlotsHeader(date: string): string
  {
    SlotsOpening + date + ":\n\n"
  }

  const SlotsOpening: string := "Available time slots for "

  /** `format_available_times(date, available_times)`: the apology when there
      are no slots; otherwise the header and one line per hour, hours
      ascending. */
  function AvailableTimesText(date: string, ts: seq<string>): Outcome<string>
  {
    if ts == [] then Returned(NoSlotsText(date))
    else if !HoursRead(ts) then Raised(ValueError)
    else
      match LinesText(SortByKey(Hours(ts), Ident), ts)
      case Raised(e) => Raised(e)
      case Returned(s) => Returned(SlotsHeader(date) + s)
  }

  method FormatAvailableTimes(date: string, times: seq<string>) returns (o: Outcome<string>)
    ensures o == AvailableTimesText(date, times)
  {
    if times == [] {
      return Returned(NoSlotsText(date));
    }
    var keys, groups, read := GroupByHour(times);
    if !read {
      return Raised(ValueError);
    }
    var sorted := SortByKey(keys, Ident);
    SortedKeysGrouped(sorted, keys, groups, times);
    o := RenderLines(sorted, groups, times);
    if o.Returned? {
      o := Returned(SlotsHeader(date) + o.value);
    }
  }

  lemma SortedKeysGrouped(sorted: seq<int>, keys: seq<int>, groups: map<int, seq<string>>, times: seq<string>)
    requires multiset(sorted) == multiset(keys)
    requires forall h :: h in groups <==> h in keys
    requires forall h :: h in groups ==> groups[h] == Group(times, h)
    ensures forall k :: 0 <= k < |sorted| ==> sorted[k] in groups && groups[sorted[k]] == Group(times, sorted[k])
  {
    forall k | 0 <= k < |sorted| ensures sorted[k] in groups {
      var h := sorted[k];
      assert h in multiset(keys);
      assert h in keys ==> h in groups;
    }
  }

  /** The first loop: fills `hour_groups` (and its key order), stopping with
      `read` false at the first hour `int` cannot read. */
  method GroupByHour(times: seq<string>) returns (keys: seq<int>, groups: map<int, seq<string>>, read: bool)
    ensures read <==> HoursRead(times)
    ensures read ==> keys == Hours(times)
    ensures read ==> forall h :: h in groups <==> h in keys
    ensures read ==> forall h :: h in groups ==> groups[h] == Group(times, h)
  {
    groups, keys := map[], [];
    var i := 0;
    while i < |times|
      invariant 0 <= i <= |times|
      invariant HoursRead(times[..i])
      invariant keys == Hours(times[..i])
      invariant forall h :: h in groups <==> h in keys
      invariant forall h :: h in groups ==> groups[h] == Group(times[..i], h)
    {
      var hour := HourOf(times[i]);
      if hour.None? {
        UnreadHour(times, i);
        return keys, groups, false;
      }
      assert times[..i + 1] == times[..i] + [times[i]];
      HoursSnoc(times[..i], times[i]);
      GroupsStep(times[..i], times[i], hour.value, keys, groups);
      if hour.value !in groups {
        groups := groups[hour.value := []];
        keys := keys + [hour.value];
      }
      groups := groups[hour.value := groups[hour.value] + [times[i]]];
      i := i + 1;
    }
    assert times[..i] == times;
    return keys, groups, true;
  }

  /** The second loop: one line per hour of `sorted`, in that order. */
  method RenderLines(sorted: seq<int>, groups: map<int, seq<string>>, times: seq<string>)
    returns (o: Outcome<string>)
    requires forall k :: 0 <= k < |sorted| ==> sorted[k] in groups && groups[sorted[k]] == Group(times, sorted[k])
    ensures o == LinesText(sorted, times)
  {
    ghost var xs := Lines(sorted, times);
    var lines := "";
    var j := 0;
    while j < |sorted|
      invariant 0 <= j <= |sorted|
      invariant Collect(xs[..j]) == Returned(lines)
    {
      var line := LineOf(groups[sorted[j]]);
      assert xs[..j + 1][..j] == xs[..j];
      if line.Raised? {
        CollectStaysRaised(xs, j + 1);
        return Raised(line.exc);
      }
      lines := lines + line.value;
      j := j + 1;
    }
    assert xs[..j] == xs;
    return Returned(lines);
  }

  /** One pass of the grouping loop keeps the dict equal to the groups. */
  lemma GroupsStep(prefix: seq<string>, t: string, h: int, keys: seq<int>, groups: map<int, seq<string>>)
    requires HoursRead(prefix) && HourOf(t) == Some(h) && keys == Hours(prefix)
    requires forall g :: g in groups <==> g in keys
    requires forall g :: g in groups ==> groups[g] == Group(prefix, g)
    ensures forall g :: g != h ==> Group(prefix + [t], g) == Group(prefix, g)
    ensures Group(prefix + [t], h) == (if h in groups then groups[h] else []) + [t]
  {
    forall g ensures Group(prefix + [t], g) == Group(prefix, g) + (if g == h then [t] else []) {
      GroupSnoc(prefix, t, g);
    }
    if h !in keys {
      GroupOutside(prefix, h);
    }
  }

  lemma UnreadHour(times: seq<string>, i: int)
    requires 0 <= i < |times| && HourOf(times[i]).None?
    ensures !HoursRead(times)
  {
  }

  lemma HoursSnoc(ts: seq<string>, t: string)
    requires HoursRead(ts) && HourOf(t).Some?
    ensures HoursRead(ts + [t])
    ensures Hours(ts + [t]) == if HourOf(t).value in Hours(ts) then Hours(ts) else Hours(ts) + [HourOf(t).value]
  {
    var us := ts + [t];
    assert us[..|us| - 1] == ts;
    assert forall k :: 0 <= k < |us| ==> us[k] == (if k < |ts| then ts[k] else t);
  }

  lemma GroupSnoc(ts: seq<string>, t: string, g: int)
    ensures Group(ts + [t], g) == Group(ts, g) + (if HourOf(t) == Some(g) then [t] else [])
  {
    var us := ts + [t];
    assert us[..|us| - 1] == ts;
  }

  /** An hour that is not a key has an empty group. */
  lemma {:induction false} GroupOutside(ts: seq<string>, h: int)
    requires HoursRead(ts) && h !in Hours(ts)
    ensures Group(ts, h) == []
  {
    if ts != [] {
      GroupOutside(ts[..|ts| - 1], h);
    }
  }

  /** Once a prefix raises, the whole raises the same. */
  lemma {:induction false} CollectStaysRaised(xs: seq<Outcome<string>>, k: int)
    requires 0 <= k <= |xs| && Collect(xs[..k]).Raised?
    ensures Collect(xs) == Collect(xs[..k])
    decreases |xs| - k
  {
    if k < |xs| {
      assert xs[..k + 1][..k] == xs[..k];
      CollectStaysRaised(xs, k + 1);
    } else {
      assert xs[..k] == xs;
    }
  }

  /** Appending raises exactly when one of the parts raised, and then raises
      what one of them raised. */
  lemma {:induction false} CollectOutcome(xs: seq<Outcome<string>>)
    ensures Collect(xs).Raised? <==> exists j :: 0 <= j < |xs| && xs[j].Raised?
    ensures Collect(xs).Raised? ==> exists j :: 0 <= j < |xs| && xs[j] == Collect(xs)
  {
    if xs != [] {
      var init := xs[..|xs| - 1];
      CollectOutcome(init);
      if exists j :: 0 <= j < |init| && init[j].Raised? {
        var j :| 0 <= j < |init| && init[j].Raised?;
        assert xs[j] == init[j];
      }
      if Collect(init).Raised? {
        var j :| 0 <= j < |init| && init[j] == Collect(init);
        assert xs[j] == init[j];
      }
    }
  }

  // ---------------------------------------------------------------- what the slots answer promises

  /** Every hour that occurs is a key. */
  lemma {:induction false} HoursCover(ts: seq<string>)
    requires HoursRead(ts)
    ensures forall k :: 0 <= k < |ts| ==> HourOf(ts[k]).value in Hours(ts)
  {
    if ts != [] {
      var init, last := ts[..|ts| - 1], ts[|ts| - 1];
      assert ts == init + [last];
      assert HoursRead(init) by {
        forall k | 0 <= k < |init| ensures HourOf(init[k]).Some? {
          assert init[k] == ts[k];
        }
      }
      HoursCover(init);
      HoursSnoc(init, last);
      forall k | 0 <= k < |ts| ensures HourOf(ts[k]).value in Hours(ts) {
        if k < |init| {
          assert ts[k] == init[k];
        }
      }
    }
  }

  /** Every key is the hour of some time. */
  lemma {:induction false} HoursOccur(ts: seq<string>)
    requires HoursRead(ts)
    ensures forall h :: h in Hours(ts) ==> exists k :: 0 <= k < |ts| && HourOf(ts[k]) == Some(h)
  {
    if ts != [] {
      var init, last := ts[..|ts| - 1], ts[|ts| - 1];
      assert ts == init + [last];
      assert HoursRead(init) by {
        forall k | 0 <= k < |init| ensures HourOf(init[k]).Some? {
          assert init[k] == ts[k];
        }
      }
      HoursOccur(init);
      HoursSnoc(init, last);
      forall h | h in Hours(ts) ensures exists k :: 0 <= k < |ts| && HourOf(ts[k]) == Some(h) {
        if h in Hours(init) {
          var k :| 0 <= k < |init| && HourOf(init[k]) == Some(h);
          assert ts[k] == init[k];
        } else {
          assert HourOf(ts[|ts| - 1]) == Some(h);
        }
      }
    }
  }

  /** No key twice. */
  lemma {:induction false} HoursDistinct(ts: seq<string>)
    requires HoursRead(ts)
    ensures forall i, j :: 0 <= i < j < |Hours(ts)| ==> Hours(ts)[i] != Hours(ts)[j]
  {
    if ts != [] {
      var init, last := ts[..|ts| - 1], ts[|ts| - 1];
      assert ts == init + [last];
      assert HoursRead(init) by {
        forall k | 0 <= k < |init| ensures HourOf(init[k]).Some? {
          assert init[k] == ts[k];
        }
      }
      HoursDistinct(init);
      HoursSnoc(init, last);
    }
  }

  /** The members of a group are the times of that hour. */
  lemma {:induction false} GroupMembers(ts: seq<string>, h: int, t: string)
    ensures t in Group(ts, h) <==> t in ts && HourOf(t) == Some(h)
  {
    if ts != [] {
      GroupMembers(ts[..|ts| - 1], h, t);
      assert ts == ts[..|ts| - 1] + [ts[|ts| - 1]];
    }
  }

  lemma DisplayOutcome(t: string)
    requires HourOf(t).Some?
    ensures Display(t).Raised? <==> ':' !in t
    ensures Display(t).Raised? ==> Display(t).exc == IndexError
  {
    CountZero(t, ':');
  }

  lemma {:induction false} CountZero(s: string, c: char)
    ensures Count(s, c) == 0 <==> c !in s
  {
    if s != [] {
      CountZero(s[1..], c);
      assert s == [s[0]] + s[1..];
    }
  }

  /** A comprehension raises exactly when one of its elements raises, and
      then raises what one of them raised. */
  lemma {:induction false} AllOutcome<T>(xs: seq<Outcome<T>>)
    ensures All(xs).Raised? <==> exists j :: 0 <= j < |xs| && xs[j].Raised?
    ensures All(xs).Raised? ==> exists j :: 0 <= j < |xs| && xs[j] == Raised(All(xs).exc)
  {
    if xs != [] {
      var init := xs[..|xs| - 1];
      AllOutcome(init);
      if exists j :: 0 <= j < |init| && init[j].Raised? {
        var j :| 0 <= j < |init| && init[j].Raised?;
        assert xs[j] == init[j];
      }
      if All(init).Raised? {
        var j :| 0 <= j < |init| && init[j] == Raised(All(init).exc);
        assert xs[j] == init[j];
      }
    }
  }

  /** A group's comprehension raises exactly when one of its slots has no
      colon, and then raises IndexError. */
  lemma DisplaysOutcome(g: seq<string>)
    requires HoursRead(g)
    ensures Displays(g).Raised? <==> exists k :: 0 <= k < |g| && ':' !in g[k]
    ensures Displays(g).Raised? ==> Displays(g).exc == IndexError
  {
    var xs := seq(|g|, k requires 0 <= k < |g| => Display(g[k]));
    AllOutcome(xs);
    forall k | 0 <= k < |g| ensures xs[k].Raised? <==> ':' !in g[k] {
      DisplayOutcome(g[k]);
    }
    if All(xs).Raised? {
      var k :| 0 <= k < |xs| && xs[k] == Raised(All(xs).exc);
      DisplayOutcome(g[k]);
    }
  }

  /** Some slot of hour `h` has no colon. */
  predicate ColonMissing(ts: seq<string>, h: int)
  {
    exists t :: t in Group(ts, h) && ':' !in t
  }

  /** The lines raise exactly when some hour's group holds a slot without a
      colon, and then raise IndexError. */
  lemma LinesOutcome(hs: seq<int>, ts: seq<string>)
    requires HoursRead(ts)
    ensures LinesText(hs, ts).Raised? <==> exists j :: 0 <= j < |hs| && ColonMissing(ts, hs[j])
    ensures LinesText(hs, ts).Raised? ==> LinesText(hs, ts).exc == IndexError
  {
    var xs := Lines(hs, ts);
    CollectOutcome(xs);
    forall j | 0 <= j < |hs| ensures xs[j].Raised? <==> ColonMissing(ts, hs[j]) {
      LineOutcome(ts, hs[j]);
    }
    if Collect(xs).Raised? {
      var j :| 0 <= j < |xs| && xs[j] == Collect(xs);
      LineOutcome(ts, hs[j]);
    }
  }

  /** One hour's line raises exactly when its group holds a slot without a colon. */
  lemma LineOutcome(ts: seq<string>, h: int)
    requires HoursRead(ts)
    ensures LineOf(Group(ts, h)).Raised? <==> ColonMissing(ts, h)
    ensures LineOf(Group(ts, h)).Raised? ==> LineOf(Group(ts, h)).exc == IndexError
  {
    var g := Group(ts, h);
    var sorted := SortText(g);
    assert HoursRead(sorted) by {
      forall k | 0 <= k < |sorted| ensures HourOf(sorted[k]).Some? {
        assert sorted[k] in multiset(g);
        GroupMembers(ts, h, sorted[k]);
      }
    }
    DisplaysOutcome(sorted);
    if exists k :: 0 <= k < |sorted| && ':' !in sorted[k] {
      var k :| 0 <= k < |sorted| && ':' !in sorted[k];
      assert sorted[k] in multiset(g);
    }
    if exists t :: t in g && ':' !in t {
      var t :| t in g && ':' !in t;
      assert t in multiset(sorted);
      var k :| 0 <= k < |sorted| && sorted[k] == t;
    }
  }

  /** The answer raises ValueError exactly when a slot's hour cannot be read,
      IndexError exactly when every hour reads but some slot has no colon,
      and answers otherwise. */
  lemma AvailableTimesErrors(date: string, ts: seq<string>)
    ensures AvailableTimesText(date, ts) == Raised(ValueError) <==> ts != [] && !HoursRead(ts)
    ensures AvailableTimesText(date, ts) == Raised(IndexError) <==>
              ts != [] && HoursRead(ts) && exists k :: 0 <= k < |ts| && ':' !in ts[k]
    ensures AvailableTimesText(date, ts).Raised? ==> AvailableTimesText(date, ts).exc in {ValueError, IndexError}
  {
    if ts != [] && HoursRead(ts) {
      var sorted := SortByKey(Hours(ts), Ident);
      LinesOutcome(sorted, ts);
      HoursCover(ts);
      HoursOccur(ts);
      if exists k :: 0 <= k < |ts| && ':' !in ts[k] {
        var k :| 0 <= k < |ts| && ':' !in ts[k];
        var h := HourOf(ts[k]).value;
        assert h in multiset(sorted);
        var j :| 0 <= j < |sorted| && sorted[j] == h;
        GroupMembers(ts, h, ts[k]);
      }
      if exists j :: 0 <= j < |sorted| && ColonMissing(ts, sorted[j]) {
        var j :| 0 <= j < |sorted| && ColonMissing(ts, sorted[j]);
        var t :| t in Group(ts, sorted[j]) && ':' !in t;
        GroupMembers(ts, sorted[j], t);
        var k :| 0 <= k < |ts| && ts[k] == t;
      }
    }
  }

  /** The lines' hours strictly ascend, and they are exactly the hours that
      occur among the times. */
  lemma LineHoursAscend(ts: seq<string>)
    requires HoursRead(ts)
    ensures var sorted := SortByKey(Hours(ts), Ident);
            && (forall i, j :: 0 <= i < j < |sorted| ==> sorted[i] < sorted[j])
            && (forall h :: h in sorted <==> exists k :: 0 <= k < |ts| && HourOf(ts[k]) == Some(h))
  {
    var sorted := SortByKey(Hours(ts), Ident);
    SortByKeySorted(Hours(ts), Ident);
    HoursDistinct(ts);
    DistinctSorted(sorted, Hours(ts));
    HoursCover(ts);
    HoursOccur(ts);
    forall h ensures h in sorted <==> h in Hours(ts) {
      assert h in sorted <==> h in multiset(sorted);
    }
    forall i, j | 0 <= i < j < |sorted| ensures sorted[i] < sorted[j] {
      assert Ident(sorted[i]) <= Ident(sorted[j]);
    }
  }

  /** A reordering of a list without repeats has no repeats. */
  lemma DistinctSorted(s: seq<int>, t: seq<int>)
    requires multiset(s) == multiset(t)
    requires forall i, j :: 0 <= i < j < |t| ==> t[i] != t[j]
    ensures forall i, j :: 0 <= i < j < |s| ==> s[i] != s[j]
  {
    AtMostOnce(t);
    forall i, j | 0 <= i < j < |s| ensures s[i] != s[j] {
      CountedTwice(s, i, j);
    }
  }

  lemma CountedTwice(s: seq<int>, i: int, j: int)
    requires 0 <= i < j < |s|
    ensures s[i] == s[j] ==> multiset(s)[s[i]] >= 2
  {
    assert s == s[..j] + [s[j]] + s[j + 1..];
    assert s[i] in s[..j];
  }

  lemma {:induction false} AtMostOnce(t: seq<int>)
    requires forall i, j :: 0 <= i < j < |t| ==> t[i] != t[j]
    ensures forall v :: multiset(t)[v] <= 1
  {
    if t != [] {
      var init := t[..|t| - 1];
      assert t == init + [t[|t| - 1]];
      AtMostOnce(init);
      assert t[|t| - 1] !in init;
    }
  }

  /** The slots in the order the lines show them. */
  function Shown(hs: seq<int>, ts: seq<string>): seq<string>
  {
    if hs == [] then [] else Shown(hs[..|hs| - 1], ts) + SortText(Group(ts, hs[|hs| - 1]))
  }

  /** The times whose hour is one of `hs`, in input order. */
  function InHours(ts: seq<string>, hs: seq<int>): seq<string>
  {
    if ts == [] then []
    else
      var t := ts[|ts| - 1];
      InHours(ts[..|ts| - 1], hs) + (if HourOf(t).Some? && HourOf(t).value in hs then [t] else [])
  }

  /** Every slot appears on the lines exactly once: what they show, read in
      order, is a reordering of the input. */
  lemma EachTimeOnce(ts: seq<string>)
    requires HoursRead(ts)
    ensures multiset(Shown(SortByKey(Hours(ts), Ident), ts)) == multiset(ts)
  {
    var sorted := SortByKey(Hours(ts), Ident);
    HoursDistinct(ts);
    DistinctSorted(sorted, Hours(ts));
    ShownFilter(sorted, ts);
    HoursCover(ts);
    forall k | 0 <= k < |ts| ensures HourOf(ts[k]).value in sorted {
      assert HourOf(ts[k]).value in multiset(sorted);
    }
    InHoursAll(ts, sorted);
  }

  lemma {:induction false} ShownFilter(hs: seq<int>, ts: seq<string>)
    requires forall i, j :: 0 <= i < j < |hs| ==> hs[i] != hs[j]
    ensures multiset(Shown(hs, ts)) == multiset(InHours(ts, hs))
  {
    if hs == [] {
      InHoursNone(ts);
    } else {
      var init, last := hs[..|hs| - 1], hs[|hs| - 1];
      ShownFilter(init, ts);
      assert hs == init + [last];
      assert last !in init;
      FilterSplit(ts, init, last);
    }
  }

  lemma {:induction false} InHoursNone(ts: seq<string>)
    ensures InHours(ts, []) == []
  {
    if ts != [] {
      InHoursNone(ts[..|ts| - 1]);
    }
  }

  lemma {:induction false} FilterSplit(ts: seq<string>, hs: seq<int>, h: int)
    requires h !in hs
    ensures multiset(InHours(ts, hs + [h])) == multiset(InHours(ts, hs)) + multiset(Group(ts, h))
  {
    if ts != [] {
      FilterSplit(ts[..|ts| - 1], hs, h);
    }
  }

  lemma {:induction false} InHoursAll(ts: seq<string>, hs: seq<int>)
    requires forall k :: 0 <= k < |ts| ==> HourOf(ts[k]).Some? && HourOf(ts[k]).value in hs
    ensures InHours(ts, hs) == ts
  {
    if ts != [] {
      var init := ts[..|ts| - 1];
      forall k | 0 <= k < |init| ensures HourOf(init[k]).Some? && HourOf(init[k]).value in hs {
        assert init[k] == ts[k];
      }
      InHoursAll(init, hs);
      assert ts == init + [ts[|ts| - 1]];
    }
  }

  /** Each line lists slots of its own hour only, sorted as text. */
  lemma LineContents(ts: seq<string>, h: int)
    ensures TextSorted(SortText(Group(ts, h)))
    ensures forall t :: t in SortText(Group(ts, h)) ==> t in ts && HourOf(t) == Some(h)
  {
    SortTextSorted(Group(ts, h));
    forall t | t in SortText(Group(ts, h)) ensures t in ts && HourOf(t) == Some(h) {
      assert t in multiset(SortText(Group(ts, h)));
      GroupMembers(ts, h, t);
    }
  }

  /** Unlike `format_time`, a line shows the hour 0 as "0": a midnight slot
      reads "0:15 AM", where `format_time` says "12:15 AM". */
  lemma MidnightShownAsZero()
    ensures Display("00:15") == Returned("0:15 AM")
    ensures FormatTime("00:15") == "12:15 AM"
  {
    MidnightDisplay();
    MidnightClock();
  }

  lemma MidnightDisplay()
    ensures Display("00:15") == Returned("0:15 AM")
  {
    assert "00:15" == "00" + [':'] + "15";
    SplitAt("00", ':', "15");
    SplitWithout("15", ':');
    assert Pad2(0) == "00";
    Pad2RoundTrip(0);
    assert SlotText(0, "15") == "0:15 AM";
  }

  lemma MidnightClock()
    ensures FormatTime("00:15") == "12:15 AM"
  {
    SlotLabelRoundTrip(0, 15);
    assert SlotLabel(0, 15) == "00:15";
    assert Pad2(15) == "15";
    assert NatToString(1) == "1";
  }

  // ---------------------------------------------------------------- ratings

  /** `str(rating)` for a rating held to one decimal ("4.5", "4.0"), given in
      tenths. */
  function RatingText(tenths: int): string
  {
    var a := if tenths < 0 then -tenths else tenths;
    (if tenths < 0 then "-" else "") + NatToString(a / 10) + "." + [DigitChar(a % 10)]
  }

  /** Reads "w.d" back into tenths. */
  function ReadTenths(s: string): Option<int>
  {
    var parts := Split(s, '.');
    if |parts| != 2 then None else TenthsOf(parts[0], parts[1])
  }

  /** The tenths a whole part and a one-digit fraction stand for; a leading
      `-` makes the fraction count down. */
  function TenthsOf(whole: string, fraction: string): Option<int>
  {
    if |fraction| != 1 || !IsDigit(fraction[0]) then None
    else
      match ParseInt(whole)
      case None => None
      case Some(w) =>
        var d := DigitValue(fraction[0]);
        Some(if |whole| > 0 && whole[0] == '-' then w * 10 - d else w * 10 + d)
  }

  /** The rating text reads back as the rating. */
  lemma RatingRoundTrip(tenths: int)
    ensures ReadTenths(RatingText(tenths)) == Some(tenths)
  {
    var a := if tenths < 0 then -tenths else tenths;
    var q, d := a / 10, a % 10;
    var whole := (if tenths < 0 then "-" else "") + NatToString(q);
    var digit := [DigitChar(d)];
    assert RatingText(tenths) == whole + ['.'] + digit;
    WholeReads(tenths < 0, q);
    RatingSplits(whole, digit);
    assert a == q * 10 + d;
  }

  /** Text without a dot, a dot and more text without one split into the
      two. */
  lemma RatingSplits(whole: string, fraction: string)
    requires '.' !in whole && '.' !in fraction
    ensures Split(whole + ['.'] + fraction, '.') == [whole, fraction]
  {
    SplitAt(whole, '.', fraction);
    SplitWithout(fraction, '.');
  }

  /** The whole part, with or without its sign, reads back as its value and
      holds no dot. */
  lemma WholeReads(negative: bool, q: nat)
    ensures var whole := (if negative then "-" else "") + NatToString(q);
            && '.' !in whole && |whole| > 0 && (whole[0] == '-' <==> negative)
            && ParseInt(whole) == Some(if negative then -(q as int) else q as int)
  {
    var digits := NatToString(q);
    DigitsLack(digits, '.');
    if negative {
      SignedDigitsRead(q);
      var whole := "-" + digits;
      assert whole[0] == '-';
    } else {
      UnsignedDigitsRead(q);
      assert "" + digits == digits;
    }
  }

  lemma SignedDigitsRead(q: nat)
    ensures ParseInt("-" + NatToString(q)) == Some(-(q as int))
  {
    NatToStringValue(q);
    assert ("-" + NatToString(q))[1..] == NatToString(q);
  }

  lemma UnsignedDigitsRead(q: nat)
    ensures var digits := NatToString(q);
            digits[0] != '-' && ParseInt(digits) == Some(q as int)
  {
    NatToStringValue(q);
    assert IsDigit(NatToString(q)[0]);
  }

  // ---------------------------------------------------------------- format_restaurant_list

  const NoMatchText: string := "I couldn't find any restaurants matching your criteria."

  const ListHeader: string := "Here are some restaurants that match your criteria:\n\n"

  /** The three lines of restaurant number `n`: name and cuisine; location,
      price as `$` signs and rating; the first 100 characters of the
      description. */
  function Entry(n: int, r: Restaurant): string
  {
    IntToString(n) + ". **" + r.name + "** - " + r.cuisine + "\n"
    + "   \U{1F4CD} " + r.location + " | \U{1F4B0} " + Repeat('$', r.priceRange)
    + " | \U{2B50} " + RatingText(r.rating) + "\n"
    + "   " + SliceTo(r.description, 100) + "...\n\n"
  }

  /** The entries, restaurant `k` (from 0) numbered `k + 1`. */
  function EntryTexts(rs: seq<Restaurant>): (es: seq<string>)
    ensures |es| == |rs|
  {
    seq(|rs|, k requires 0 <= k < |rs| => Entry(k + 1, rs[k]))
  }

  /** Entry `k` of the list is restaurant `k` under number `k + 1`. */
  lemma EntryTextAt(rs: seq<Restaurant>, k: int)
    requires 0 <= k < |rs|
    ensures EntryTexts(rs)[k] == Entry(k + 1, rs[k])
  {
  }

  /** `"".join(parts)`, written as the loop appends them. */
  function Concat(parts: seq<string>): string
  {
    if parts == [] then "" else Concat(parts[..|parts| - 1]) + parts[|parts| - 1]
  }

  /** `format_restaurant_list(restaurants)`. */
  function RestaurantListText(rs: seq<Restaurant>): string
  {
    if rs == [] then NoMatchText else ListHeader + Concat(EntryTexts(rs))
  }

  method FormatRestaurantList(rs: seq<Restaurant>) returns (text: string)
    ensures text == RestaurantListText(rs)
  {
    if rs == [] {
      return NoMatchText;
    }
    ghost var es := EntryTexts(rs);
    text := ListHeader;
    var i := 0;
    while i < |rs|
      invariant 0 <= i <= |rs|
      invariant text == ListHeader + Concat(es[..i])
    {
      ConcatStep(ListHeader, es, i);
      text := AppendEntry(text, rs, i);
      i := i + 1;
    }
    assert es[..i] == es;
  }

  /** Appending part `i` to the joined first `i` parts joins the first
      `i + 1`. */
  lemma ConcatStep(header: string, parts: seq<string>, i: int)
    requires 0 <= i < |parts|
    ensures header + Concat(parts[..i]) + parts[i] == header + Concat(parts[..i + 1])
  {
    assert parts[..i + 1][..i] == parts[..i];
    Associative(header, Concat(parts[..i]), parts[i]);
  }

  /** One pass of the loop: the `+=` of restaurant `i`'s three lines. */
  method AppendEntry(text: string, rs: seq<Restaurant>, i: int) returns (t: string)
    requires 0 <= i < |rs|
    ensures t == text + EntryTexts(rs)[i]
  {
    EntryTextAt(rs, i);
    t := text + Entry(i + 1, rs[i]);
  }

  /** Joined parts hold each part whole, between the parts before and after. */
  lemma {:induction false} ConcatAt(parts: seq<string>, k: int)
    requires 0 <= k < |parts|
    ensures Concat(parts) == Concat(parts[..k]) + parts[k] + Concat(parts[k + 1..])
    decreases |parts|
  {
    var init := parts[..|parts| - 1];
    if k == |parts| - 1 {
      assert parts[..k] == init;
      assert parts[k + 1..] == [];
    } else {
      ConcatAt(init, k);
      assert init[..k] == parts[..k];
      var after := parts[k + 1..];
      assert after[..|after| - 1] == init[k + 1..];
      assert after[|after| - 1] == parts[|parts| - 1];
      Associative(Concat(parts[..k]) + parts[k], Concat(init[k + 1..]), parts[|parts| - 1]);
    }
  }

  /** The list shows every restaurant's entry, under its number in the list. */
  lemma ListShowsEach(rs: seq<Restaurant>, k: int)
    requires 0 <= k < |rs|
    ensures Contains(RestaurantListText(rs), Entry(k + 1, rs[k]))
  {
    var es := EntryTexts(rs);
    ConcatAt(es, k);
    ContainsPart(Concat(es[..k]), es[k], Concat(es[k + 1..]));
    ContainsIn(ListHeader, Concat(es), es[k]);
  }

  lemma Associative(a: string, b: string, c: string)
    ensures a + b + c == a + (b + c)
  {
  }

  // ---------------------------------------------------------------- format_restaurant_details

  /** `f"{hours['open']} - {hours['close']}"`. */
  function HoursText(h: Hours): string
  {
    h.open + " - " + h.close
  }

  const NotFoundText: string := "Restaurant details not found."

  /** `format_restaurant_details(restaurant)`: no restaurant gives the
      not-found sentence; a restaurant whose hours lack "weekday" or
      "weekend" raises KeyError; otherwise its page. */
  function RestaurantDetails(r: Option<Restaurant>): Outcome<string>
  {
    if r.None? then Returned(NotFoundText)
    else if "weekday" !in r.value.hours || "weekend" !in r.value.hours then Raised(KeyError)
    else
      var x := r.value;
      Returned(DetailsPage(x.name, x.cuisine, x.location, Repeat('$', x.priceRange), RatingText(x.rating),
                           IntToString(x.capacity), HoursText(x.hours["weekday"]), HoursText(x.hours["weekend"]),
                           x.description))
  }

  /** The page: the name as its heading, then cuisine, location, price,
      rating, capacity, the weekday and weekend hours and the description. */
  function DetailsPage(name: string, cuisine: string, location: string, price: string, rating: string,
                       capacity: string, weekday: string, weekend: string, description: string): (p: string)
    ensures |p| >= |DetailsHeading(name)| && p[..|DetailsHeading(name)|] == DetailsHeading(name)
    ensures Contains(p, weekday) && Contains(p, weekend)
  {
    var facts := CuisineLabel + cuisine + LocationLabel + location + PriceLabel + price
                 + RatingLabel + rating + CapacityLabel + capacity + CapacityUnit;
    var weekdayLine := WeekdaysLabel + weekday + WeekendsLabel;
    var hours := weekdayLine + weekend;
    var closing := DescriptionLabel + description + "\n";
    ContainsPart(WeekdaysLabel, weekday, WeekendsLabel);
    ContainsIn(weekdayLine, weekend, weekday);
    ContainsEnds(weekdayLine, weekend);
    var body := facts + hours + closing;
    ThreePieces(facts, hours, closing, weekday);
    ThreePieces(facts, hours, closing, weekend);
    ContainsIn(DetailsHeading(name), body, weekday);
    ContainsIn(DetailsHeading(name), body, weekend);
    DetailsHeading(name) + body
  }

  const CuisineLabel: string := "**Cuisine:** "
  const LocationLabel: string := "\n**Location:** "
  const PriceLabel: string := "\n**Price Range:** "
  const RatingLabel: string := "\n**Rating:** "
  const CapacityLabel: string := " stars\n**Capacity:** "
  const CapacityUnit: string := " guests\n\n"
  const WeekdaysLabel: string := "**Hours:**\n- Weekdays: "
  const WeekendsLabel: string := "\n- Weekends: "
  const DescriptionLabel: string := "\n\n**Description:**\n"

  function DetailsHeading(name: string): string
  {
    "# " + name + "\n\n"
  }

  /** Whether the page or the error comes back depends only on the two
      entries of the hours table. */
  lemma DetailsOutcome(r: Option<Restaurant>)
    ensures RestaurantDetails(r).Raised? <==>
              r.Some? && ("weekday" !in r.value.hours || "weekend" !in r.value.hours)
    ensures RestaurantDetails(r).Raised? ==> RestaurantDetails(r).exc == KeyError
    ensures r.None? ==> RestaurantDetails(r) == Returned(NotFoundText)
  {
  }

  /** A restaurant built without hours shows the default ones: "11:00 - 22:00"
      on weekdays and "10:00 - 23:00" at weekends. */
  lemma DefaultHoursShown(id: string, name: string, cuisine: string, location: string,
                          capacity: int, priceRange: int, rating: int, description: string)
    ensures var d := RestaurantDetails(Some(NewRestaurant(id, name, cuisine, location, capacity, priceRange,
                                                          rating, description)));
            d.Returned? && Contains(d.value, "11:00 - 22:00") && Contains(d.value, "10:00 - 23:00")
            && d.value[..|DetailsHeading(name)|] == DetailsHeading(name)
  {
    var r := NewRestaurant(id, name, cuisine, location, capacity, priceRange, rating, description);
    assert HoursText(r.hours["weekday"]) == "11:00 - 22:00";
    assert HoursText(r.hours["weekend"]) == "10:00 - 23:00";
  }

  // ---------------------------------------------------------------- format_reservation_confirmation

  /** `format_reservation_confirmation(reservation, restaurant)`. */
  function Confirmation(res: Reservation, r: Restaurant): string
  {
    ConfirmationPage(r.name, res.date, FormatTime(res.time), IntToString(res.partySize), res.id,
                     r.location, r.cuisine, Repeat('$', r.priceRange))
  }

  /** The confirmation names the restaurant, and quotes the date, the time
      as given and the reservation id, which the user needs to change or
      cancel it. */
  function ConfirmationPage(name: string, date: string, time: string, size: string, id: string,
                            address: string, cuisine: string, price: string): (p: string)
    ensures Contains(p, name) && Contains(p, date) && Contains(p, time) && Contains(p, id)
  {
    var opening := ConfirmedOpening;
    var details := ConfirmedDetails;
    var dateLine := date + TimeLabel;
    var sizeLine := SizeLabel + size + IdLabel;
    var closing := AddressLabel + address + ConfirmedCuisineLabel + cuisine + ConfirmedPriceLabel + price + ThanksText;
    var named := opening + name + details;
    var timed := dateLine + time;
    var quoted := sizeLine + id + closing;
    ContainsPart(opening, name, details);
    ContainsEnds(date, TimeLabel);
    ContainsIn(dateLine, time, date);
    ContainsEnds(dateLine, time);
    ContainsPart(sizeLine, id, closing);
    ThreePieces(named, timed, quoted, name);
    ThreePieces(named, timed, quoted, date);
    ThreePieces(named, timed, quoted, time);
    ThreePieces(named, timed, quoted, id);
    named + timed + quoted
  }

  const ConfirmedOpening: string := "\n# Reservation Confirmed!\n\nYour reservation at **"
  const ConfirmedDetails: string := "** has been confirmed.\n\n**Details:**\n- **Date:** "
  const TimeLabel: string := "\n- **Time:** "
  const SizeLabel: string := "\n- **Party Size:** "
  const IdLabel: string := " people\n- **Reservation ID:** "
  const AddressLabel: string := "\n\n**Restaurant Information:**\n- **Address:** "
  const ConfirmedCuisineLabel: string := "\n- **Cuisine:** "
  const ConfirmedPriceLabel: string := "\n- **Price Range:** "
  const ThanksText: string := "\n\nThank you for choosing our service! If you need to modify or cancel your "
                              + "reservation, please use your reservation ID.\n"

  /** A word in any of three pieces is in their concatenation. */
  lemma ThreePieces(a: string, b: string, c: string, w: string)
    requires Contains(a, w) || Contains(b, w) || Contains(c, w)
    ensures Contains(a + b + c, w)
  {
    ContainsIn(a, b, w);
    ContainsIn(a + b, c, w);
  }

  /** The confirmation quotes the reservation id, the time in 12-hour form
      and the restaurant's name. */
  lemma ConfirmationQuotes(res: Reservation, r: Restaurant)
    ensures var c := Confirmation(res, r);
            Contains(c, res.id) && Contains(c, FormatTime(res.time)) && Contains(c, r.name)
            && Contains(c, res.date)
  {
  }
}
