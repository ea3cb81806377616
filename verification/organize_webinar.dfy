/** The "organize a webinar" use case. The clock and the id source are
    injected capabilities; here they are the values `now` and `newId` they
    would return. The lead-time check runs before the seat check, and both
    precede the single write. */
module OrganizeWebinars {
  import opened Results
  import opened Webinars
  import opened Exceptions
  import opened Repository

  datatype OrganizeWebinarCommand = OrganizeWebinarCommand(
    userId: Id,
    title: string,
    seats: int,
    startDate: Instant,
    endDate: Instant
  )

  /** The command satisfies both business rules at instant `now`. */
  predicate Acceptable(now: Instant, cmd: OrganizeWebinarCommand) {
    now + MinimumLeadTime <= cmd.startDate && cmd.seats <= MaxSeats
  }

  /** The record a successful call persists. */
  function NewWebinar(newId: Id, cmd: OrganizeWebinarCommand): (w: Webinar) {
    Webinar(newId, cmd.userId, cmd.title, cmd.startDate, cmd.endDate, cmd.seats)
  }

  /** The store as the call leaves it, and the new id or the failure. */
  function Execute(s: Store, now: Instant, newId: Id, cmd: OrganizeWebinarCommand): (r: Outcome<Id>)
    // error precedence
    ensures cmd.startDate < now + MinimumLeadTime ==> r.result == Err(WebinarDatesTooSoon)
    ensures (now + MinimumLeadTime <= cmd.startDate && cmd.seats > MaxSeats)
              ==> r.result == Err(WebinarTooManySeats)
    ensures Acceptable(now, cmd) && newId in s ==> r.result == Err(StorageFault(DuplicateId(newId)))
    // nothing is written on failure
    ensures r.result.Err? ==> r.store == s
    // success
    ensures r.result.Ok? <==> Acceptable(now, cmd) && newId !in s
    ensures r.result.Ok? ==> r.result.value == newId
    ensures r.result.Ok? ==> r.store.Keys == s.Keys + {newId}
    ensures r.result.Ok? ==> var w := r.store[newId];
                             && w.id == newId && w.organizerId == cmd.userId && w.title == cmd.title
                             && w.startDate == cmd.startDate && w.endDate == cmd.endDate
                             && w.seats == cmd.seats
    ensures r.result.Ok? ==> SameElsewhere(s, r.store, newId)
    ensures WellKeyed(s) ==> WellKeyed(r.store)
  {
    var minimumStartDate := now + MinimumLeadTime;
    if cmd.startDate < minimumStartDate then Outcome(s, Err(WebinarDatesTooSoon))
    else if cmd.seats > MaxSeats then Outcome(s, Err(WebinarTooManySeats))
    else
      var w := NewWebinar(newId, cmd);
      match Create(s, w)
      case Ok(s') => Outcome(s', Ok(newId))
      case Err(e) => Outcome(s, Err(StorageFault(e)))
  }

  /** A created webinar satisfies the creation-time rules, and it is what a
      later lookup of the returned id yields. */
  lemma OrganizedIsFound(s: Store, now: Instant, newId: Id, cmd: OrganizeWebinarCommand)
    requires Execute(s, now, newId, cmd).result.Ok?
    ensures var o := Execute(s, now, newId, cmd);
            && FindById(o.store, o.result.value) == Some(NewWebinar(newId, cmd))
            && o.store[o.result.value].startDate >= now + MinimumLeadTime
            && o.store[o.result.value].seats <= MaxSeats
  {
  }

  /** Organizing keeps every stored record within the seat ceiling. */
  lemma OrganizeKeepsCapacity(s: Store, now: Instant, newId: Id, cmd: OrganizeWebinarCommand)
    requires WithinCapacity(s)
    ensures WithinCapacity(Execute(s, now, newId, cmd).store)
  {
  }

  /** Creation checks no lower bound on seats: a request for zero or fewer
      seats that meets the date rule is accepted and stored as given. */
  lemma OrganizeAcceptsNonPositiveSeats(s: Store, now: Instant, newId: Id, cmd: OrganizeWebinarCommand)
    requires newId !in s
    requires now + MinimumLeadTime <= cmd.startDate
    requires cmd.seats <= 0
    ensures Execute(s, now, newId, cmd).result == Ok(newId)
    ensures FindById(Execute(s, now, newId, cmd).store, newId).value.seats == cmd.seats
  {
  }
}
