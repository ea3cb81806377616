/** The integration scenarios of the durable repository, each starting from
    an empty database holding at most the one webinar below. */
module RepositoryScenarios {
  import opened Results
  import opened Webinars
  import opened Repository

  /** 2022-01-01T00:00:00Z and one hour later. */
  const Start: Instant := 1640995200000
  const End: Instant := 1640998800000

  const Sample := Webinar("webinar-id", "organizer-id", "Webinar title", Start, End, 100)

  lemma CreateWebinar()
    ensures Create(map[], Sample).Ok?
    ensures FindById(Create(map[], Sample).value, "webinar-id")
              == Some(Webinar("webinar-id", "organizer-id", "Webinar title", Start, End, 100))
  {
  }

  lemma FindWebinar()
    ensures FindById(map["webinar-id" := Sample], "webinar-id")
              == Some(Webinar("webinar-id", "organizer-id", "Webinar title", Start, End, 100))
  {
  }

  lemma UpdateWebinar()
    ensures var changed := Sample.(title := "Updated webinar title", seats := 200);
            && Update(map["webinar-id" := Sample], changed).Ok?
            && FindById(Update(map["webinar-id" := Sample], changed).value, "webinar-id")
                 == Some(Webinar("webinar-id", "organizer-id", "Updated webinar title", Start, End, 200))
  {
  }

  lemma DeleteWebinar()
    ensures FindById(Delete(map["webinar-id" := Sample], "webinar-id"), "webinar-id") == None
  {
  }
}
