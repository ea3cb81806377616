/** The end-to-end scenarios of the two endpoints, each starting from an
    empty database. The clock and the id source of the running server are
    parameters: each organize scenario holds for every clock reading that
    puts the request's start date on the side of the three-day limit the
    scenario exercises. */
module ApiScenarios {
  import opened Results
  import opened Webinars
  import opened Exceptions
  import opened Repository
  import opened Routes

  const TestWebinarId := "test-webinar"

  /** The database after the scenario's arrange step. */
  function Arranged(organizerId: Id, created: Instant): (s: Store)
  {
    Create(map[], Webinar(TestWebinarId, organizerId, "Webinar Test", created, created, 10)).value
  }

  lemma UpdateSeats(created: Instant)
    ensures var r := PostSeats(Arranged("test-user", created), TestWebinarId, "30");
            && r.1 == Response(200, MessageBody("Seats updated"))
            && FindById(r.0, TestWebinarId).Some?
            && FindById(r.0, TestWebinarId).value.seats == 30
  {
    assert ParseDecimal("30") == 30;
  }

  lemma SeatsOfUnknownWebinar(created: Instant)
    ensures var r := PostSeats(Arranged("test-user", created), "notExistantWebinar", "30");
            && r.1 == Response(404, ErrorBody("Webinar not found"))
            && FindById(r.0, TestWebinarId).Some?
            && FindById(r.0, TestWebinarId).value.seats == 10
  {
  }

  lemma SeatsOfSomeoneElsesWebinar(created: Instant)
    ensures var r := PostSeats(Arranged("test-user2", created), TestWebinarId, "30");
            && r.1 == Response(401, ErrorBody("User is not allowed to update this webinar"))
            && FindById(r.0, TestWebinarId).Some?
            && FindById(r.0, TestWebinarId).value.seats == 10
  {
  }

  /** 2025-03-03T10:00:00Z, 2025-03-03T11:00:00Z and 2024-01-03T23:59:59Z. */
  const March3At10: Instant := 1740996000000
  const March3At11: Instant := 1740999600000
  const January3Late: Instant := 1704326399000

  lemma CreateWebinar(now: Instant)
    requires now + MinimumLeadTime <= March3At10
    ensures var b := OrganizeBody("test-user", "New Webinar", 100, March3At10, March3At11);
            var r := PostWebinars(map[], now, "id-1", b);
            && r.1.status == 201
            && r.1.body.CreatedBody? && r.1.body.id == "id-1"
            && r.1.body.message == "Webinar created with id-1"
            && FindById(r.0, "id-1").Some?
            && FindById(r.0, "id-1").value.seats == b.seats
            && FindById(r.0, "id-1").value.organizerId == b.userId
  {
  }

  lemma WebinarTooSoon(now: Instant, newId: Id)
    requires January3Late < now + MinimumLeadTime
    ensures var b := OrganizeBody("test-user", "New Webinar", 100, January3Late, January3Late);
            PostWebinars(map[], now, newId, b)
              == (map[], Response(400, ErrorBody("Webinar must be scheduled at least 3 days in advance")))
  {
  }

  lemma WebinarTooManySeats(now: Instant, newId: Id)
    requires now + MinimumLeadTime <= March3At10
    ensures var b := OrganizeBody("test-user", "New Webinar", 1500, March3At10, March3At10);
            PostWebinars(map[], now, newId, b)
              == (map[], Response(400, ErrorBody("Webinar must have at most 1000 seats")))
  {
  }
}
