/** The store of restaurants and reservations. Every call of the original
    reloads the whole list, changes it and writes it back, so the store is a
    pair of in-memory lists here; the write outcome of `add_reservation` is a
    parameter. */
module Store {
  import opened Python
  import opened Restaurants
  import opened Reservations

  // ---------------------------------------------------------------- lookup and upsert

  /** Position of the first entry whose key is `k`; `|s|` when there is none. */
  function IndexOf<T>(s: seq<T>, key: T -> string, k: string): (i: nat)
    ensures i <= |s|
    ensures i < |s| ==> key(s[i]) == k
    ensures forall j :: 0 <= j < i ==> key(s[j]) != k
  {
    if s == [] then 0
    else if key(s[0]) == k then 0
    else 1 + IndexOf(s[1..], key, k)
  }

  /** The lookup loop with early return: the first entry with key `k`, or None. */
  function Find<T>(s: seq<T>, key: T -> string, k: string): (r: Option<T>)
    ensures r.Some? ==> r.value in s && key(r.value) == k
    ensures r.None? <==> forall x :: x in s ==> key(x) != k
  {
    var i := IndexOf(s, key, k);
    if i < |s| then Some(s[i]) else None
  }

  /** Add-or-update: replace the first entry with the same key, otherwise append. */
  function Upsert<T>(s: seq<T>, key: T -> string, x: T): seq<T>
  {
    var i := IndexOf(s, key, key(x));
    if i < |s| then s[i := x] else s + [x]
  }

  /** An existing key is updated in place: same length, the first match
      replaced, every other entry untouched. */
  lemma UpsertExisting<T>(s: seq<T>, key: T -> string, x: T, i: nat)
    requires i < |s| && key(s[i]) == key(x)
    requires forall j :: 0 <= j < i ==> key(s[j]) != key(x)
    ensures |Upsert(s, key, x)| == |s|
    ensures Upsert(s, key, x)[i] == x
    ensures forall j :: 0 <= j < |s| && j != i ==> Upsert(s, key, x)[j] == s[j]
  {
    var k := IndexOf(s, key, key(x));
    assert k == i by {
      if k < i {
      } else if k > i {
      }
    }
  }

  /** A new key is appended at the end. */
  lemma UpsertNew<T>(s: seq<T>, key: T -> string, x: T)
    requires forall y :: y in s ==> key(y) != key(x)
    ensures Upsert(s, key, x) == s + [x]
  {
  }

  /** After an upsert, looking the key up finds the entry just written. */
  lemma FindAfterUpsert<T>(s: seq<T>, key: T -> string, x: T)
    ensures Find(Upsert(s, key, x), key, key(x)) == Some(x)
  {
    var i := IndexOf(s, key, key(x));
    var t := Upsert(s, key, x);
    var j := IndexOf(t, key, key(x));
    if i < |s| {
      assert t[i] == x;
      assert j <= i;
      assert j == i;
    } else {
      assert t[|s|] == x;
      assert j == |s|;
    }
  }

  /** An upsert leaves the lookup of every other key as it was. */
  lemma FindOtherAfterUpsert<T>(s: seq<T>, key: T -> string, x: T, k: string)
    requires k != key(x)
    ensures Find(Upsert(s, key, x), key, k) == Find(s, key, k)
  {
    var i := IndexOf(s, key, key(x));
    var t := Upsert(s, key, x);
    var a := IndexOf(s, key, k);
    var b := IndexOf(t, key, k);
    if i < |s| {
      assert |t| == |s|;
      forall j | 0 <= j < |s| ensures (key(t[j]) == k) == (key(s[j]) == k) {
        if j == i {
        }
      }
      assert a == b;
    } else {
      assert t == s + [x];
      if a < |s| {
        assert t[a] == s[a];
      } else {
        assert t[|s|] == x;
      }
    }
  }

  /** `add_restaurants`: one upsert per element, in order. */
  function UpsertAll<T>(s: seq<T>, key: T -> string, xs: seq<T>): seq<T>
    decreases |xs|
  {
    if xs == [] then s else UpsertAll(Upsert(s, key, xs[0]), key, xs[1..])
  }

  function RestaurantKey(r: Restaurant): string
  {
    r.id
  }

  function ReservationKey(r: Reservation): string
  {
    r.id
  }

  /** `get_restaurant(restaurant_id)` for an id of any JSON type: ids are
      text, so any other value finds nothing. */
  function RestaurantById(rs: seq<Restaurant>, rid: Json): (r: Option<Restaurant>)
    ensures r.Some? ==> r.value in rs && rid == JStr(r.value.id)
    ensures r.None? <==> forall x :: x in rs ==> rid != JStr(x.id)
  {
    if rid.JStr? then Find(rs, RestaurantKey, rid.s) else None
  }

  // ---------------------------------------------------------------- queries

  /** `get_reservations_by_date`: the confirmed reservations for that
      restaurant and date, in stored order. The arguments are compared with
      `==`, so only text arguments can match. */
  function ConfirmedOn(s: seq<Reservation>, rid: Json, date: Json): seq<Reservation>
  {
    if s == [] then []
    else
      var rest := ConfirmedOn(s[1..], rid, date);
      if IsConfirmedOn(s[0], rid, date) then [s[0]] + rest else rest
  }

  predicate IsConfirmedOn(r: Reservation, rid: Json, date: Json)
  {
    JStr(r.restaurantId) == rid && JStr(r.date) == date && r.status == Confirmed
  }

  /** A reservation is listed exactly when it is stored, is for that restaurant
      and date, and is confirmed; cancelled ones never are. */
  lemma {:induction false} ConfirmedOnMembers(s: seq<Reservation>, rid: Json, date: Json)
    ensures forall x :: x in ConfirmedOn(s, rid, date) <==> x in s && IsConfirmedOn(x, rid, date)
  {
    if s != [] {
      ConfirmedOnMembers(s[1..], rid, date);
      assert s == [s[0]] + s[1..];
    }
  }

  /** The listing keeps the stored order: it is the stored list with the
      non-matching entries dropped. */
  lemma {:induction false} ConfirmedOnSubsequence(s: seq<Reservation>, rid: Json, date: Json)
    ensures |ConfirmedOn(s, rid, date)| <= |s|
    ensures ConfirmedOn(s + [], rid, date) == ConfirmedOn(s, rid, date)
    ensures forall t :: ConfirmedOn(s + t, rid, date) == ConfirmedOn(s, rid, date) + ConfirmedOn(t, rid, date)
  {
    forall t ensures ConfirmedOn(s + t, rid, date) == ConfirmedOn(s, rid, date) + ConfirmedOn(t, rid, date) {
      ConfirmedOnAppend(s, t, rid, date);
    }
    if s != [] {
      ConfirmedOnSubsequence(s[1..], rid, date);
    }
    assert s + [] == s;
  }

  lemma {:induction false} ConfirmedOnAppend(s: seq<Reservation>, t: seq<Reservation>, rid: Json, date: Json)
    ensures ConfirmedOn(s + t, rid, date) == ConfirmedOn(s, rid, date) + ConfirmedOn(t, rid, date)
  {
    if s != [] {
      ConfirmedOnAppend(s[1..], t, rid, date);
      assert (s + t)[1..] == s[1..] + t;
    } else {
      assert s + t == t;
    }
  }

  /** `get_customer_reservations`: for each stored reservation, in order,
      `r.customer_name.lower() == customer_name.lower()` (AttributeError when
      either is not text), then `email is None or r.email == email`. */
  function CustomerReservations(s: seq<Reservation>, name: Json, email: Json): (o: Outcome<seq<Reservation>>)
    ensures o.Returned? ==> |o.value| <= |s|
  {
    if s == [] then Returned([])
    else if !s[0].customerName.JStr? || !name.JStr? then Raised(AttributeError)
    else
      var keep := Lower(s[0].customerName.s) == Lower(name.s) && (email == JNull || s[0].email == email);
      var rest := CustomerReservations(s[1..], name, email);
      if rest.Raised? then rest
      else Returned(if keep then [s[0]] + rest.value else rest.value)
  }

  /** Names match whatever their letter case, and the email filters only when given. */
  lemma {:induction false} CustomerReservationsMembers(s: seq<Reservation>, name: string, email: Json)
    requires forall x :: x in s ==> x.customerName.JStr?
    ensures CustomerReservations(s, JStr(name), email).Returned?
    ensures forall x :: x in CustomerReservations(s, JStr(name), email).value <==>
              x in s && Lower(x.customerName.s) == Lower(name) && (email == JNull || x.email == email)
  {
    if s != [] {
      CustomerReservationsMembers(s[1..], name, email);
      assert s == [s[0]] + s[1..];
    }
  }

  /** Any stored reservation whose name is not text makes the query raise. */
  lemma {:induction false} CustomerReservationsRaises(s: seq<Reservation>, name: Json, email: Json, i: nat)
    requires i < |s| && !s[i].customerName.JStr?
    ensures CustomerReservations(s, name, email) == Raised(AttributeError)
  {
    if i > 0 && s[0].customerName.JStr? && name.JStr? {
      CustomerReservationsRaises(s[1..], name, email, i - 1);
    }
  }

  // ---------------------------------------------------------------- the store

  /** The whole of the stored data, as one value. */
  datatype Db = Db(restaurants: seq<Restaurant>, reservations: seq<Reservation>)

  class DataStore {
    var restaurants: seq<Restaurant>
    var reservations: seq<Reservation>

    function State(): Db
      reads this
    {
      Db(restaurants, reservations)
    }

    /** A store over freshly initialised (empty) files. */
    constructor()
      ensures restaurants == [] && reservations == []
    {
      restaurants := [];
      reservations := [];
    }

    /** `get_restaurant`: the first restaurant with that id, or None. */
    method GetRestaurant(id: string) returns (r: Option<Restaurant>)
      ensures r == Find(restaurants, RestaurantKey, id)
    {
      var i := 0;
      while i < |restaurants|
        invariant i <= |restaurants|
        invariant forall j :: 0 <= j < i ==> restaurants[j].id != id
      {
        if restaurants[i].id == id {
          assert IndexOf(restaurants, RestaurantKey, id) == i by {
            var k := IndexOf(restaurants, RestaurantKey, id);
            if k < i {
            } else if k > i {
            }
          }
          return Some(restaurants[i]);
        }
        i := i + 1;
      }
      r := None;
    }

    /** `add_restaurant`: replace the first restaurant with the same id, or append. */
    method AddRestaurant(r: Restaurant)
      modifies this
      ensures restaurants == Upsert(old(restaurants), RestaurantKey, r)
      ensures reservations == old(reservations)
    {
      var i := 0;
      while i < |restaurants|
        invariant i <= |restaurants|
        invariant forall j :: 0 <= j < i ==> restaurants[j].id != r.id
      {
        if restaurants[i].id == r.id {
          assert IndexOf(restaurants, RestaurantKey, r.id) == i by {
            var k := IndexOf(restaurants, RestaurantKey, r.id);
            if k < i {
            } else if k > i {
            }
          }
          restaurants := restaurants[i := r];
          return;
        }
        i := i + 1;
      }
      restaurants := restaurants + [r];
    }

    /** `add_restaurants`: `add_restaurant` on each element, in order. */
    method AddRestaurants(rs: seq<Restaurant>)
      modifies this
      ensures restaurants == UpsertAll(old(restaurants), RestaurantKey, rs)
      ensures reservations == old(reservations)
    {
      var i := 0;
      while i < |rs|
        invariant i <= |rs|
        invariant UpsertAll(old(restaurants), RestaurantKey, rs) == UpsertAll(restaurants, RestaurantKey, rs[i..])
        invariant reservations == old(reservations)
      {
        assert rs[i..][1..] == rs[i + 1..];
        AddRestaurant(rs[i]);
        i := i + 1;
      }
    }

    /** `get_reservation`: the first reservation with that id, or None. */
    method GetReservation(id: string) returns (r: Option<Reservation>)
      ensures r == Find(reservations, ReservationKey, id)
    {
      var i := 0;
      while i < |reservations|
        invariant i <= |reservations|
        invariant forall j :: 0 <= j < i ==> reservations[j].id != id
      {
        if reservations[i].id == id {
          assert IndexOf(reservations, ReservationKey, id) == i by {
            var k := IndexOf(reservations, ReservationKey, id);
            if k < i {
            } else if k > i {
            }
          }
          return Some(reservations[i]);
        }
        i := i + 1;
      }
      r := None;
    }

    /** `get_reservations_by_date`: the filter over the stored list. */
    method GetReservationsByDate(rid: Json, date: Json) returns (rs: seq<Reservation>)
      ensures rs == ConfirmedOn(reservations, rid, date)
    {
      rs := [];
      var i := 0;
      while i < |reservations|
        invariant i <= |reservations|
        invariant rs == ConfirmedOn(reservations[..i], rid, date)
      {
        ConfirmedOnAppend(reservations[..i], [reservations[i]], rid, date);
        assert reservations[..i + 1] == reservations[..i] + [reservations[i]];
        if IsConfirmedOn(reservations[i], rid, date) {
          rs := rs + [reservations[i]];
        }
        i := i + 1;
      }
      assert reservations[..i] == reservations;
    }

    /** `add_reservation`: the upsert of `add_restaurant`, then the file write,
        whose success `writeOk` stands for. A failed write leaves the stored
        list as it was and returns False. */
    method AddReservation(r: Reservation, writeOk: bool) returns (saved: bool)
      modifies this
      ensures saved == writeOk
      ensures reservations == if writeOk then Upsert(old(reservations), ReservationKey, r) else old(reservations)
      ensures restaurants == old(restaurants)
    {
      if !writeOk {
        return false;
      }
      var i := 0;
      while i < |reservations|
        invariant i <= |reservations|
        invariant forall j :: 0 <= j < i ==> reservations[j].id != r.id
      {
        if reservations[i].id == r.id {
          assert IndexOf(reservations, ReservationKey, r.id) == i by {
            var k := IndexOf(reservations, ReservationKey, r.id);
            if k < i {
            } else if k > i {
            }
          }
          reservations := reservations[i := r];
          return true;
        }
        i := i + 1;
      }
      reservations := reservations + [r];
      saved := true;
    }

    /** `get_customer_reservations`. */
    method GetCustomerReservations(name: Json, email: Json) returns (o: Outcome<seq<Reservation>>)
      ensures o == CustomerReservations(reservations, name, email)
    {
      var found: seq<Reservation> := [];
      var i := 0;
      assert reservations[0..] == reservations;
      PrependNothing(CustomerReservations(reservations, name, email));
      while i < |reservations|
        invariant i <= |reservations|
        invariant CustomerReservations(reservations, name, email) ==
                  Prepend(found, CustomerReservations(reservations[i..], name, email))
      {
        var x := reservations[i];
        CustomerStep(reservations, i, name, email, found);
        if !x.customerName.JStr? || !name.JStr? {
          return Raised(AttributeError);
        }
        if Lower(x.customerName.s) == Lower(name.s) && (email == JNull || x.email == email) {
          found := found + [x];
        }
        i := i + 1;
      }
      assert found + [] == found;
      o := Returned(found);
    }
  }

  /** `found` followed by the rest of the answer (exceptions pass through). */
  function Prepend(found: seq<Reservation>, rest: Outcome<seq<Reservation>>): Outcome<seq<Reservation>>
  {
    if rest.Raised? then rest else Returned(found + rest.value)
  }

  /** One turn of the `get_customer_reservations` loop. */
  lemma CustomerStep(s: seq<Reservation>, i: nat, name: Json, email: Json, found: seq<Reservation>)
    requires i < |s|
    ensures !s[i].customerName.JStr? || !name.JStr? ==>
              Prepend(found, CustomerReservations(s[i..], name, email)) == Raised(AttributeError)
    ensures s[i].customerName.JStr? && name.JStr? ==>
              Prepend(found, CustomerReservations(s[i..], name, email)) ==
              Prepend(if Lower(s[i].customerName.s) == Lower(name.s) && (email == JNull || s[i].email == email)
                      then found + [s[i]] else found,
                      CustomerReservations(s[i + 1..], name, email))
  {
    assert s[i..][1..] == s[i + 1..];
    var rest := CustomerReservations(s[i + 1..], name, email);
    if rest.Returned? {
      assert found + ([s[i]] + rest.value) == (found + [s[i]]) + rest.value;
    }
  }

  lemma PrependNothing(o: Outcome<seq<Reservation>>)
    ensures Prepend([], o) == o
  {
    if o.Returned? {
      assert [] + o.value == o.value;
    }
  }

  /** A successful write makes `get_reservation(r.id)` return `r`. */
  lemma SavedReservationFound(s: seq<Reservation>, r: Reservation)
    ensures Find(Upsert(s, ReservationKey, r), ReservationKey, r.id) == Some(r)
  {
    FindAfterUpsert(s, ReservationKey, r);
  }
}
