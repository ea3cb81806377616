/** The unit scenarios of the change-seats feature: one webinar with 100
    seats organized by alice, seeded into the in-memory repository, and one
    request per scenario. The ids of the seeded users are not fixed here;
    the scenarios hold for any two distinct users. */
module ChangeSeatsScenarios {
  import opened Results
  import opened Webinars
  import opened Exceptions
  import opened Repository
  import opened ChangeSeats

  const WebinarId := "webinar-id"

  /** 2024-01-01T00:00:00Z and one hour later. */
  const Start: Instant := 1704067200000
  const End: Instant := 1704070800000

  function Seeded(alice: User): (s: Store)
  {
    Seed([Webinar(WebinarId, alice.id, "Webinar title", Start, End, 100)])
  }

  /** The check every failing scenario ends with: the store is as seeded and
      the webinar still has 100 seats. */
  predicate RemainsUnchanged(alice: User, cmd: ChangeSeatsCommand) {
    var s := Seeded(alice);
    var after := Execute(s, cmd).store;
    after == s && FindById(after, WebinarId).Some? && FindById(after, WebinarId).value.seats == 100
  }

  lemma HappyPath(alice: User)
    ensures var r := Execute(Seeded(alice), ChangeSeatsCommand(alice, WebinarId, 200));
            && r.result.Ok?
            && FindById(r.store, WebinarId).Some?
            && FindById(r.store, WebinarId).value.seats == 200
  {
  }

  lemma WebinarDoesNotExist(alice: User)
    ensures var cmd := ChangeSeatsCommand(alice, "non-existing-webinar-id", 200);
            && Execute(Seeded(alice), cmd).result == Err(WebinarNotFound)
            && Message(Execute(Seeded(alice), cmd).result.error) == "Webinar not found"
            && RemainsUnchanged(alice, cmd)
  {
  }

  lemma WebinarOfSomeoneElse(alice: User, bob: User)
    requires alice.id != bob.id
    ensures var cmd := ChangeSeatsCommand(bob, WebinarId, 200);
            && Execute(Seeded(alice), cmd).result == Err(WebinarNotOrganizer)
            && Message(Execute(Seeded(alice), cmd).result.error) == "User is not allowed to update this webinar"
            && RemainsUnchanged(alice, cmd)
  {
  }

  lemma ReduceSeats(alice: User)
    ensures var cmd := ChangeSeatsCommand(alice, WebinarId, 50);
            && Execute(Seeded(alice), cmd).result == Err(SeatReduction)
            && Message(Execute(Seeded(alice), cmd).result.error) == "You cannot reduce the number of seats"
            && RemainsUnchanged(alice, cmd)
  {
  }

  lemma MoreThanMaxSeats(alice: User)
    ensures var cmd := ChangeSeatsCommand(alice, WebinarId, 1100);
            && Execute(Seeded(alice), cmd).result == Err(WebinarTooManySeats)
            && Message(Execute(Seeded(alice), cmd).result.error) == "Webinar must have at most 1000 seats"
            && RemainsUnchanged(alice, cmd)
  {
  }

  /** The helper's promise in general: whatever request fails against
      whatever store, the store the call leaves behind is the store before,
      and so is the targeted webinar in it. */
  lemma FailureLeavesStoreUnchanged(s: Store, cmd: ChangeSeatsCommand)
    requires WellKeyed(s)
    requires Execute(s, cmd).result.Err?
    ensures Execute(s, cmd).store == s
    ensures FindById(Execute(s, cmd).store, cmd.webinarId) == FindById(s, cmd.webinarId)
  {
  }
}
