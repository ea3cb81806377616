/** The webinar repository as an abstract store: a finite map from id to the
    stored record. Both adapters (durable and in-memory) are modelled by the
    same four operations. */
module Repository {
  import opened Results
  import opened Webinars
  import opened Exceptions

  type Store = map<Id, Webinar>

  /** What a use case leaves behind: the store as it stands afterwards, with
      every write the call made, and the value it returned or the failure it
      raised. */
  datatype Outcome<+T> = Outcome(store: Store, result: Result<T, Failure>)

  /** Every record is stored under its own id: the key a record is found by
      is the id it reports. Every operation below preserves this. */
  predicate WellKeyed(s: Store) {
    forall id :: id in s ==> s[id].id == id
  }

  /** The seat ceiling holds for every stored record. */
  ghost predicate WithinCapacity(s: Store) {
    forall id :: id in s ==> s[id].seats <= MaxSeats
  }

  /** Records other than `except` are stored identically in both maps. */
  predicate SameElsewhere(s: Store, t: Store, except: Id) {
    && s.Keys - {except} == t.Keys - {except}
    && forall id :: id in s && id != except ==> id in t && t[id] == s[id]
  }

  /** `findById`: the stored record, or absent; never a failure. */
  function FindById(s: Store, id: Id): (r: Option<Webinar>)
    ensures r.Some? <==> id in s
    ensures r.Some? ==> r.value == s[id]
    ensures r.Some? && WellKeyed(s) ==> r.value.id == id
  {
    if id in s then Some(s[id]) else None
  }

  /** `create`: persists a new record. The id is the primary key, so a
      second record with the same id is refused and nothing is written. */
  function Create(s: Store, w: Webinar): (r: Result<Store, RepositoryError>)
    ensures r.Ok? <==> w.id !in s
    ensures r.Err? ==> r.error == DuplicateId(w.id)
    ensures r.Ok? ==> r.value.Keys == s.Keys + {w.id}
    ensures r.Ok? ==> FindById(r.value, w.id) == Some(w)
    ensures r.Ok? ==> SameElsewhere(s, r.value, w.id)
    ensures r.Ok? && WellKeyed(s) ==> WellKeyed(r.value)
  {
    if w.id in s then Err(DuplicateId(w.id)) else Ok(s[w.id := w])
  }

  /** `update`: overwrites the mutable fields (title, dates, seats) of the
      record stored under `w.id`; its id and organizer are kept. Updating a
      record that does not exist is refused. */
  function Update(s: Store, w: Webinar): (r: Result<Store, RepositoryError>)
    ensures r.Ok? <==> w.id in s
    ensures r.Err? ==> r.error == MissingId(w.id)
    ensures r.Ok? ==> r.value.Keys == s.Keys
    ensures r.Ok? ==> var u := r.value[w.id];
                      && u.id == s[w.id].id && u.organizerId == s[w.id].organizerId
                      && u.title == w.title && u.startDate == w.startDate
                      && u.endDate == w.endDate && u.seats == w.seats
    ensures r.Ok? ==> SameElsewhere(s, r.value, w.id)
    ensures r.Ok? && WellKeyed(s) ==> WellKeyed(r.value)
  {
    if w.id !in s then Err(MissingId(w.id))
    else
      var old_ := s[w.id];
      Ok(s[w.id := old_.(title := w.title, startDate := w.startDate,
                         endDate := w.endDate, seats := w.seats)])
  }

  /** `delete`: removes the record if present; absent ids are a no-op. */
  function Delete(s: Store, id: Id): (r: Store)
    ensures FindById(r, id) == None
    ensures r.Keys == s.Keys - {id}
    ensures SameElsewhere(s, r, id)
    ensures id !in s ==> r == s
    ensures WellKeyed(s) ==> WellKeyed(r)
  {
    s - {id}
  }

  /** The in-memory adapter, seeded with an initial list of webinars. When two
      seeds share an id, the first one is the one found. */
  function Seed(ws: seq<Webinar>): (r: Store)
    ensures WellKeyed(r)
    ensures forall i :: 0 <= i < |ws| ==> ws[i].id in r
    ensures forall id :: id in r ==> r[id] in ws
    ensures forall i :: 0 <= i < |ws| && FirstWithId(ws, i) ==> r[ws[i].id] == ws[i]
  {
    if |ws| == 0 then map[]
    else
      var rest := Seed(ws[1..]);
      SeedStep(ws, rest);
      rest[ws[0].id := ws[0]]
  }

  /** Adding the head seed in front of the store seeded from the tail keeps
      the four promises of `Seed`. */
  lemma SeedStep(ws: seq<Webinar>, rest: Store)
    requires |ws| > 0
    requires WellKeyed(rest)
    requires forall i :: 0 <= i < |ws[1..]| ==> ws[1..][i].id in rest
    requires forall id :: id in rest ==> rest[id] in ws[1..]
    requires forall i :: 0 <= i < |ws[1..]| && FirstWithId(ws[1..], i) ==> rest[ws[1..][i].id] == ws[1..][i]
    ensures var r := rest[ws[0].id := ws[0]];
            && WellKeyed(r)
            && (forall i :: 0 <= i < |ws| ==> ws[i].id in r)
            && (forall id :: id in r ==> r[id] in ws)
            && (forall i :: 0 <= i < |ws| && FirstWithId(ws, i) ==> r[ws[i].id] == ws[i])
  {
    var r := rest[ws[0].id := ws[0]];
    forall i | 1 <= i < |ws| ensures ws[i].id in r {
      assert ws[1..][i - 1] == ws[i];
    }
    forall id | id in r ensures r[id] in ws {
      if id != ws[0].id {
        assert rest[id] in ws[1..];
      }
    }
    forall i | 0 <= i < |ws| && FirstWithId(ws, i) ensures r[ws[i].id] == ws[i] {
      if i > 0 {
        FirstWithIdShift(ws, i);
      }
    }
  }

  /** A seed that is the first with its id stays the first after dropping
      the head, and its id differs from the head's. */
  lemma FirstWithIdShift(ws: seq<Webinar>, i: int)
    requires 1 <= i < |ws| && FirstWithId(ws, i)
    ensures ws[i].id != ws[0].id
    ensures FirstWithId(ws[1..], i - 1) && ws[1..][i - 1] == ws[i]
  {
    forall j | 0 <= j < i - 1 ensures ws[1..][j].id != ws[1..][i - 1].id {
      assert ws[1..][j] == ws[j + 1];
    }
  }

  /** No seed before position `i` has the id of the seed at `i`. */
  predicate FirstWithId(ws: seq<Webinar>, i: int)
    requires 0 <= i < |ws|
  {
    forall j :: 0 <= j < i ==> ws[j].id != ws[i].id
  }

  /** With distinct ids, every seed is found under its own id. */
  lemma SeedFindsEveryWebinar(ws: seq<Webinar>, i: int)
    requires forall j, k :: 0 <= j < k < |ws| ==> ws[j].id != ws[k].id
    requires 0 <= i < |ws|
    ensures FindById(Seed(ws), ws[i].id) == Some(ws[i])
  {
    assert FirstWithId(ws, i);
  }
}
