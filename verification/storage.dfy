/**
 * The in-memory implementation of the storage interface: two JavaScript
 * `Map`s, users and travel submissions, keyed by id and changed in place.
 */
module Storage {
  import opened Wrappers
  import opened Schema
  import opened JsMap

  /** JavaScript falsiness of a `string | null | undefined`: only null, undefined and "" are falsy. */
  predicate Falsy(v: Option<string>) {
    v == None || v == Some("")
  }

  /** `v || null` on a `string | null | undefined`. */
  function OrNull(v: Option<string>): (r: Option<string>)
    ensures r == None <==> Falsy(v)
    ensures r != None ==> r == v
    ensures r != Some("")
  {
    if Falsy(v) then None else v
  }

  /** A stored row never holds "" in a nullable column. */
  predicate Normalized(s: TravelSubmission) {
    forall f :: s.Field(f) != Some("")
  }

  /** The record `createTravelSubmission` builds from its input under the id `id`. */
  function MakeSubmission(id: Id, s: InsertTravelSubmission): (r: TravelSubmission)
    ensures r.id == id && r.name == s.name
    ensures forall f :: r.Field(f) == None <==> Falsy(s.Field(f))
    ensures forall f :: r.Field(f) != None ==> r.Field(f) == s.Field(f)
    ensures Normalized(r)
  {
    TravelSubmission(
      id,
      s.name,
      OrNull(s.arrivalDate),
      OrNull(s.arrivalTime),
      OrNull(s.arrivalAirlineFlight),
      OrNull(s.departureDate),
      OrNull(s.departureTime),
      OrNull(s.departureAirlineFlight),
      OrNull(s.notes))
  }

  /** A stored row seen as an insert record again: everything but the id. */
  function WithoutId(r: TravelSubmission): (s: InsertTravelSubmission)
    ensures s.name == r.name
    ensures forall f :: s.Field(f) == r.Field(f)
  {
    InsertTravelSubmission(
      r.name, r.arrivalDate, r.arrivalTime, r.arrivalAirlineFlight,
      r.departureDate, r.departureTime, r.departureAirlineFlight, r.notes)
  }

  /** An insert record with no "" in an optional field. */
  predicate NoEmptyText(s: InsertTravelSubmission) {
    forall f :: s.Field(f) != Some("")
  }

  /** Normalising a record that holds no "" changes no field. */
  lemma NormalizeFixesNoEmptyText(id: Id, s: InsertTravelSubmission)
    requires NoEmptyText(s)
    ensures WithoutId(MakeSubmission(id, s)) == s
  {
    var t := WithoutId(MakeSubmission(id, s));
    forall f ensures t.Field(f) == s.Field(f) {
      assert s.Field(f) != Some("");
    }
    assert t.arrivalDate == t.Field(ArrivalDate) == s.Field(ArrivalDate);
    assert t.arrivalTime == t.Field(ArrivalTime) == s.Field(ArrivalTime);
    assert t.arrivalAirlineFlight == t.Field(ArrivalAirlineFlight) == s.Field(ArrivalAirlineFlight);
    assert t.departureDate == t.Field(DepartureDate) == s.Field(DepartureDate);
    assert t.departureTime == t.Field(DepartureTime) == s.Field(DepartureTime);
    assert t.departureAirlineFlight == t.Field(DepartureAirlineFlight) == s.Field(DepartureAirlineFlight);
    assert t.notes == t.Field(Notes) == s.Field(Notes);
  }

  /** Normalisation is idempotent: storing a stored row again gives the same row. */
  lemma NormalizeIdempotent(id: Id, s: InsertTravelSubmission)
    ensures MakeSubmission(id, WithoutId(MakeSubmission(id, s))) == MakeSubmission(id, s)
  {
    var r := MakeSubmission(id, s);
    assert NoEmptyText(WithoutId(r));
    NormalizeFixesNoEmptyText(id, WithoutId(r));
  }

  class MemStorage {
    var users: OrderedMap<User>
    var travelSubmissions: OrderedMap<TravelSubmission>

    /** Both maps are well formed, every row sits under its own id, and stored submissions are normalised. */
    ghost predicate Valid()
      reads this
    {
      users.Valid() && travelSubmissions.Valid() &&
      (forall id :: id in users.entries ==> users.entries[id].id == id) &&
      (forall id :: id in travelSubmissions.entries ==>
         travelSubmissions.entries[id].id == id && Normalized(travelSubmissions.entries[id]))
    }

    constructor ()
      ensures Valid()
      ensures forall id :: GetUser(id) == None && GetTravelSubmission(id) == None
      ensures Users() == [] && ListTravelSubmissions() == []
    {
      users := Empty();
      travelSubmissions := Empty();
    }

    /** `getUser`: the user stored under `id`, if any. */
    function GetUser(id: Id): (r: Option<User>)
      reads this
      requires Valid()
      ensures r.Some? <==> id in users.entries
      ensures r.Some? ==> r.value.id == id && r.value in Users()
    {
      if id in users.entries then
        JsMap.InValues(users, users.entries[id]);
        Some(users.entries[id])
      else None
    }

    /** All users in insertion order (the iteration order of the users map). */
    function Users(): (r: seq<User>)
      reads this
      requires Valid()
      ensures |r| == |users.keys|
      ensures forall i :: 0 <= i < |r| ==> r[i].id == users.keys[i] && r[i] == users.entries[users.keys[i]]
    {
      users.Values()
    }

    /** `getUserByUsername`: the first user, in insertion order, with that username. */
    method GetUserByUsername(username: string) returns (r: Option<User>)
      requires Valid()
      ensures r.Some? <==> exists u :: u in Users() && u.username == username
      ensures r.Some? ==> exists i :: 0 <= i < |Users()| && Users()[i] == r.value &&
                            r.value.username == username &&
                            forall j :: 0 <= j < i ==> Users()[j].username != username
      ensures r.Some? ==> GetUser(r.value.id) == r
    {
      var all := Users();
      var i := 0;
      while i < |all|
        invariant 0 <= i <= |all|
        invariant forall j :: 0 <= j < i ==> all[j].username != username
      {
        if all[i].username == username {
          return Some(all[i]);
        }
        i := i + 1;
      }
      return None;
    }

    /** `createUser`: stores `u` under the fresh id `id` and returns the stored user. */
    method CreateUser(u: InsertUser, id: Id) returns (v: User)
      requires Valid()
      requires id !in users.entries
      modifies this
      ensures Valid()
      ensures v == User(id, u.username, u.password)
      ensures GetUser(id) == Some(v)
      ensures forall other :: other != id ==> GetUser(other) == old(GetUser(other))
      ensures Users() == old(Users()) + [v]
      ensures travelSubmissions == old(travelSubmissions)
    {
      v := User(id, u.username, u.password);
      SetFreshAppends(users, id, v);
      users := users.Set(id, v);
    }

    /** `createTravelSubmission`: stores the normalised record under the fresh id `id` and returns it. */
    method CreateTravelSubmission(s: InsertTravelSubmission, id: Id) returns (r: TravelSubmission)
      requires Valid()
      requires id !in travelSubmissions.entries
      modifies this
      ensures Valid()
      ensures r == MakeSubmission(id, s)
      ensures GetTravelSubmission(r.id) == Some(r)
      ensures forall other :: other != id ==> GetTravelSubmission(other) == old(GetTravelSubmission(other))
      ensures ListTravelSubmissions() == old(ListTravelSubmissions()) + [r]
      ensures users == old(users)
    {
      r := MakeSubmission(id, s);
      SetFreshAppends(travelSubmissions, id, r);
      travelSubmissions := travelSubmissions.Set(id, r);
    }

    /** `listTravelSubmissions`: every stored submission, in insertion order. */
    function ListTravelSubmissions(): (r: seq<TravelSubmission>)
      reads this
      requires Valid()
      ensures |r| == |travelSubmissions.keys|
      ensures forall i :: 0 <= i < |r| ==> GetTravelSubmission(r[i].id) == Some(r[i]) && Normalized(r[i])
      ensures forall i, j :: 0 <= i < j < |r| ==> r[i].id != r[j].id
    {
      travelSubmissions.Values()
    }

    /** `getTravelSubmission`: the submission stored under `id`, if any. */
    function GetTravelSubmission(id: Id): (r: Option<TravelSubmission>)
      reads this
      requires Valid()
      ensures r.Some? <==> id in travelSubmissions.entries
      ensures r.Some? ==> r.value.id == id && Normalized(r.value)
    {
      travelSubmissions.Get(id)
    }
  }

  /**
   * Two users with the same username are both accepted: `createUser`
   * does not enforce the uniqueness the table declares, and a lookup by
   * that username returns the earlier one.
   */
  method DuplicateUsernamesAccepted(name: string, p1: string, p2: string, id1: Id, id2: Id)
    returns (store: MemStorage, a: User, b: User, found: Option<User>)
    requires id1 != id2
    ensures store.Valid()
    ensures a.username == name && b.username == name && a.id != b.id
    ensures store.GetUser(id1) == Some(a) && store.GetUser(id2) == Some(b)
    ensures found == Some(a)
  {
    store := new MemStorage();
    a := store.CreateUser(InsertUser(name, p1), id1);
    b := store.CreateUser(InsertUser(name, p2), id2);
    assert store.Users() == [a, b];
    found := store.GetUserByUsername(name);
  }
}
