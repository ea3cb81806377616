/** The "change seats" use case: the organizer of a webinar raises its seat
    capacity. Checks run in a fixed order — existence, organizer, no
    reduction, ceiling — and every check precedes the single write. */
module ChangeSeats {
  import opened Results
  import opened Webinars
  import opened Exceptions
  import opened Repository

  datatype ChangeSeatsCommand = ChangeSeatsCommand(user: User, webinarId: Id, seats: int)

  /** The targeted webinar exists and the acting user organizes it. */
  predicate OrganizedBy(s: Store, cmd: ChangeSeatsCommand) {
    cmd.webinarId in s && s[cmd.webinarId].organizerId == cmd.user.id
  }

  /** The request passes every rule against the stored record. */
  predicate Permitted(s: Store, cmd: ChangeSeatsCommand) {
    OrganizedBy(s, cmd) && s[cmd.webinarId].seats <= cmd.seats <= MaxSeats
  }

  /** The store as the call leaves it, and its result. A request that fails
      any check leaves the store as it found it: every check precedes the
      single write. */
  function Execute(s: Store, cmd: ChangeSeatsCommand): (r: Outcome<()>)
    requires WellKeyed(s)
    // error precedence
    ensures cmd.webinarId !in s ==> r.result == Err(WebinarNotFound)
    ensures cmd.webinarId in s && !OrganizedBy(s, cmd) ==> r.result == Err(WebinarNotOrganizer)
    ensures OrganizedBy(s, cmd) && cmd.seats < s[cmd.webinarId].seats ==> r.result == Err(SeatReduction)
    ensures (OrganizedBy(s, cmd) && s[cmd.webinarId].seats <= cmd.seats && cmd.seats > MaxSeats)
              ==> r.result == Err(WebinarTooManySeats)
    // nothing is written on failure
    ensures r.result.Err? ==> r.store == s
    // success
    ensures r.result.Ok? <==> Permitted(s, cmd)
    ensures r.result.Ok? ==> r.store == s[cmd.webinarId := s[cmd.webinarId].(seats := cmd.seats)]
    ensures WellKeyed(r.store)
  {
    var found := FindById(s, cmd.webinarId);
    if found.None? then Outcome(s, Err(WebinarNotFound))
    else
      var w := found.value;
      if w.organizerId != cmd.user.id then Outcome(s, Err(WebinarNotOrganizer))
      else if cmd.seats < w.seats then Outcome(s, Err(SeatReduction))
      else if cmd.seats > MaxSeats then Outcome(s, Err(WebinarTooManySeats))
      else
        match Update(s, w.(seats := cmd.seats))
        case Ok(s') => Outcome(s', Ok(()))
        case Err(e) => Outcome(s, Err(StorageFault(e)))
  }

  /** A history of requests applied one after another, each to the store the
      previous one left. */
  function Replay(s: Store, cmds: seq<ChangeSeatsCommand>): (r: Store)
    requires WellKeyed(s)
    ensures WellKeyed(r)
    decreases |cmds|
  {
    if |cmds| == 0 then s else Replay(Execute(s, cmds[0]).store, cmds[1..])
  }

  /** What a request can change about the stored records: the key set stays,
      seats only grow, id, organizer, title and dates are kept. */
  ghost predicate Evolves(s: Store, t: Store) {
    && s.Keys == t.Keys
    && forall id :: id in s ==>
         && t[id].seats >= s[id].seats
         && t[id].id == s[id].id
         && t[id].organizerId == s[id].organizerId
         && t[id].title == s[id].title
         && t[id].startDate == s[id].startDate
         && t[id].endDate == s[id].endDate
  }

  /** A failing request writes nothing; a succeeding one changes only the
      targeted record, and only its seat count. */
  lemma ExecuteEvolves(s: Store, cmd: ChangeSeatsCommand)
    requires WellKeyed(s)
    ensures Evolves(s, Execute(s, cmd).store)
    ensures SameElsewhere(s, Execute(s, cmd).store, cmd.webinarId)
    ensures !Permitted(s, cmd) ==> Execute(s, cmd).store == s
  {
  }

  /** Over any history, seats never decrease and no record appears,
      disappears or changes owner. */
  lemma {:induction false} ReplayEvolves(s: Store, cmds: seq<ChangeSeatsCommand>)
    requires WellKeyed(s)
    ensures Evolves(s, Replay(s, cmds))
    decreases |cmds|
  {
    if |cmds| > 0 {
      var s1 := Execute(s, cmds[0]).store;
      ExecuteEvolves(s, cmds[0]);
      ReplayEvolves(s1, cmds[1..]);
    }
  }

  /** A history of seat changes keeps every record within the ceiling. */
  lemma {:induction false} ReplayKeepsCapacity(s: Store, cmds: seq<ChangeSeatsCommand>)
    requires WellKeyed(s) && WithinCapacity(s)
    ensures WithinCapacity(Replay(s, cmds))
    decreases |cmds|
  {
    if |cmds| > 0 {
      var s1 := Execute(s, cmds[0]).store;
      assert WithinCapacity(s1);
      ReplayKeepsCapacity(s1, cmds[1..]);
    }
  }

  /** Repeating a successful request succeeds again and leaves the store as
      the first call left it. */
  lemma ExecuteIdempotent(s: Store, cmd: ChangeSeatsCommand)
    requires WellKeyed(s)
    requires Execute(s, cmd).result.Ok?
    ensures Execute(Execute(s, cmd).store, cmd) == Execute(s, cmd)
  {
    var t := Execute(s, cmd).store;
    assert t[cmd.webinarId := t[cmd.webinarId].(seats := cmd.seats)] == t;
  }
}
