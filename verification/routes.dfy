/** The HTTP adapter of the two use cases: how each endpoint builds its
    command from the request and maps the use case's outcome to a status
    and a JSON body. Transport, serialization and the server are not
    modelled; an endpoint is a function from request fields to a response. */
module Routes {
  import opened Results
  import opened Webinars
  import opened Exceptions
  import opened Repository
  import ChangeSeats
  import OrganizeWebinars

  /** The three JSON body shapes the endpoints send. */
  datatype Body =
    | MessageBody(message: string)
    | ErrorBody(error: string)
    | CreatedBody(id: Id, message: string)

  datatype Response = Response(status: int, body: Body)

  const GenericError := "An error occurred"
  const SeatsUpdated := "Seats updated"
  const CreatedPrefix := "Webinar created with "

  /** The seats endpoint acts on behalf of this fixed user. */
  const RequestUser := User("test-user", "test@test.com", "fake")

  // ---------------------------------------------------------------------
  // Decimal text of the seats field

  predicate IsDigit(c: char) {
    '0' <= c <= '9'
  }

  /** A non-empty string of decimal digits. */
  predicate IsDecimal(t: string) {
    |t| > 0 && forall i :: 0 <= i < |t| ==> IsDigit(t[i])
  }

  function DigitValue(c: char): (d: nat)
    requires IsDigit(c)
    ensures d < 10
  {
    (c as int - '0' as int) as nat
  }

  function DigitChar(d: nat): (c: char)
    requires d < 10
    ensures IsDigit(c) && DigitValue(c) == d
  {
    (d + '0' as int) as char
  }

  function Pow10(k: nat): (p: nat)
    ensures p >= 1
  {
    if k == 0 then 1 else 10 * Pow10(k - 1)
  }

  /** Base-10 reading of a digit string, most significant digit first, as
      `parseInt(t, 10)` reads it. The value fits in as many digits as the
      text has. */
  function ParseDecimal(t: string): (n: nat)
    requires IsDecimal(t)
    ensures n < Pow10(|t|)
    decreases |t|
  {
    if |t| == 1 then DigitValue(t[0])
    else ParseDecimal(t[..|t| - 1]) * 10 + DigitValue(t[|t| - 1])
  }

  /** Shortest decimal text of `n`: the inverse of `ParseDecimal`. */
  function ShowDecimal(n: nat): (t: string)
    ensures IsDecimal(t)
    ensures |t| > 1 ==> t[0] != '0'
  {
    if n < 10 then [DigitChar(n)] else ShowDecimal(n / 10) + [DigitChar(n % 10)]
  }

  lemma {:induction false} ParseShowDecimal(n: nat)
    ensures ParseDecimal(ShowDecimal(n)) == n
  {
    if n >= 10 {
      var t := ShowDecimal(n);
      assert t[..|t| - 1] == ShowDecimal(n / 10);
      ParseShowDecimal(n / 10);
    }
  }

  /** Every digit string without a leading zero is the text of its value. */
  lemma {:induction false} ShowParseDecimal(t: string)
    requires IsDecimal(t)
    requires |t| > 1 ==> t[0] != '0'
    ensures ShowDecimal(ParseDecimal(t)) == t
    decreases |t|
  {
    if |t| > 1 {
      var p := t[..|t| - 1];
      assert IsDecimal(p);
      ShowParseDecimal(p);
      var n := ParseDecimal(t);
      ParsePositive(p);
      assert n / 10 == ParseDecimal(p) && n % 10 == DigitValue(t[|t| - 1]);
      assert t == p + [t[|t| - 1]];
    }
  }

  /** Leading zeros do not change the value read: "030" reads as 30. */
  lemma {:induction false} ParseLeadingZero(t: string)
    requires IsDecimal(t)
    ensures IsDecimal("0" + t)
    ensures ParseDecimal("0" + t) == ParseDecimal(t)
    decreases |t|
  {
    var z := "0" + t;
    assert IsDecimal(z) by {
      forall i | 0 <= i < |z| ensures IsDigit(z[i]) {
        if i > 0 { assert z[i] == t[i - 1]; }
      }
    }
    if |t| == 1 {
      assert z[..1] == "0";
    } else {
      var p := t[..|t| - 1];
      assert z[..|z| - 1] == "0" + p;
      assert IsDecimal(p);
      ParseLeadingZero(p);
    }
  }

  /** A digit string that does not start with zero reads as a positive value. */
  lemma {:induction false} ParsePositive(t: string)
    requires IsDecimal(t) && t[0] != '0'
    ensures ParseDecimal(t) > 0
    decreases |t|
  {
    if |t| > 1 {
      ParsePositive(t[..|t| - 1]);
    }
  }

  // ---------------------------------------------------------------------
  // POST /webinars/:id/seats

  /** Seats come from the body text read in base 10, the webinar from the
      path, the user is the fixed request user. */
  function SeatsCommand(pathId: Id, seatsText: string): (c: ChangeSeats.ChangeSeatsCommand)
    requires IsDecimal(seatsText)
  {
    ChangeSeats.ChangeSeatsCommand(RequestUser, pathId, ParseDecimal(seatsText))
  }

  /** Whatever count the client writes in decimal is the count the use case
      receives, for the webinar named in the path, acting as the request user. */
  lemma {:induction false} SeatsCommandReadsBody(pathId: Id, n: nat)
    ensures SeatsCommand(pathId, ShowDecimal(n)) == ChangeSeats.ChangeSeatsCommand(RequestUser, pathId, n)
  {
    ParseShowDecimal(n);
  }

  function SeatsResponse(outcome: Result<(), Failure>): (r: Response)
    ensures r.status == 200 <==> outcome.Ok?
    ensures r.status == 200 ==> r.body == MessageBody(SeatsUpdated)
    ensures r.status == 404 <==> outcome == Err(WebinarNotFound)
    ensures r.status == 401 <==> outcome == Err(WebinarNotOrganizer)
    ensures r.status == 404 || r.status == 401 ==> r.body == ErrorBody(Message(outcome.error))
    ensures r.status !in {200, 401, 404} ==> r.status == 500 && r.body == ErrorBody(GenericError)
  {
    match outcome
    case Ok(_) => Response(200, MessageBody(SeatsUpdated))
    case Err(WebinarNotFound) => Response(404, ErrorBody(Message(WebinarNotFound)))
    case Err(WebinarNotOrganizer) => Response(401, ErrorBody(Message(WebinarNotOrganizer)))
    case Err(_) => Response(500, ErrorBody(GenericError))
  }

  /** The seats endpoint end to end: the store afterwards and the response. */
  function PostSeats(s: Store, pathId: Id, seatsText: string): (r: (Store, Response))
    requires WellKeyed(s)
    requires IsDecimal(seatsText)
    ensures var n := ParseDecimal(seatsText);
            r.1.status == 200 <==>
              pathId in s && s[pathId].organizerId == RequestUser.id
              && s[pathId].seats <= n <= MaxSeats
    ensures r.1.status == 200 ==>
              r.0 == s[pathId := s[pathId].(seats := ParseDecimal(seatsText))]
    ensures r.1.status != 200 ==> r.0 == s
    ensures r.1.status == 404 <==> pathId !in s
    ensures r.1.status == 404 ==> r.1.body == ErrorBody(NotFoundMessage)
    ensures r.1.status == 401 <==> pathId in s && s[pathId].organizerId != RequestUser.id
    ensures r.1.status == 401 ==> r.1.body == ErrorBody(NotOrganizerMessage)
    ensures r.1.status == 200 ==> r.1.body == MessageBody(SeatsUpdated)
    ensures r.1.status !in {200, 401, 404} ==> r.1 == Response(500, ErrorBody(GenericError))
  {
    var o := ChangeSeats.Execute(s, SeatsCommand(pathId, seatsText));
    (o.store, SeatsResponse(o.result))
  }

  // ---------------------------------------------------------------------
  // POST /webinars

  /** The JSON body of an organize request, with dates as instants. */
  datatype OrganizeBody = OrganizeBody(
    userId: Id,
    title: string,
    seats: int,
    startDate: Instant,
    endDate: Instant
  )

  /** The command is the body's five fields, unchanged: whatever id the
      webinar gets, the record built from the command holds the body's user
      as organizer and the body's title, dates and seats. */
  function OrganizeCommand(b: OrganizeBody): (c: OrganizeWebinars.OrganizeWebinarCommand)
    ensures forall id :: OrganizeWebinars.NewWebinar(id, c)
                         == Webinar(id, b.userId, b.title, b.startDate, b.endDate, b.seats)
  {
    OrganizeWebinars.OrganizeWebinarCommand(b.userId, b.title, b.seats, b.startDate, b.endDate)
  }

  function OrganizeResponse(outcome: Result<Id, Failure>): (r: Response)
    ensures r.status == 201 <==> outcome.Ok?
    ensures r.status == 201 ==> r.body == CreatedBody(outcome.value, CreatedPrefix + outcome.value)
    ensures r.status == 400 <==> outcome.Err? && outcome.error in {WebinarDatesTooSoon, WebinarTooManySeats}
    ensures r.status == 400 ==> r.body == ErrorBody(Message(outcome.error))
    ensures r.status !in {201, 400} ==> r.status == 500 && r.body == ErrorBody(GenericError)
  {
    match outcome
    case Ok(id) => Response(201, CreatedBody(id, CreatedPrefix + id))
    case Err(WebinarDatesTooSoon) => Response(400, ErrorBody(Message(WebinarDatesTooSoon)))
    case Err(WebinarTooManySeats) => Response(400, ErrorBody(Message(WebinarTooManySeats)))
    case Err(_) => Response(500, ErrorBody(GenericError))
  }

  /** The organize endpoint end to end, with the clock reading `now` and the
      id source yielding `newId`. */
  function PostWebinars(s: Store, now: Instant, newId: Id, b: OrganizeBody): (r: (Store, Response))
    ensures r.1.status == 201 <==> OrganizeWebinars.Acceptable(now, OrganizeCommand(b)) && newId !in s
    ensures r.1.status == 201 ==> r.1.body == CreatedBody(newId, CreatedPrefix + newId)
    ensures r.1.status == 201 ==>
              r.0 == s[newId := Webinar(newId, b.userId, b.title, b.startDate, b.endDate, b.seats)]
    ensures r.1.status != 201 ==> r.0 == s
    ensures b.startDate < now + MinimumLeadTime ==> r.1 == Response(400, ErrorBody(DatesTooSoonMessage))
    ensures (now + MinimumLeadTime <= b.startDate && b.seats > MaxSeats)
              ==> r.1 == Response(400, ErrorBody(TooManySeatsMessage))
    ensures r.1.status !in {201, 400} ==> r.1 == Response(500, ErrorBody(GenericError))
  {
    var o := OrganizeWebinars.Execute(s, now, newId, OrganizeCommand(b));
    (o.store, OrganizeResponse(o.result))
  }

  /** The organize endpoint answers 500 exactly when the rules pass but the
      id source repeats an id already stored. */
  lemma RepeatedIdIsServerError(s: Store, now: Instant, newId: Id, b: OrganizeBody)
    ensures (PostWebinars(s, now, newId, b).1.status == 500)
              == (OrganizeWebinars.Acceptable(now, OrganizeCommand(b)) && newId in s)
  {
  }

  /** The seats endpoint never reports a seat reduction or a ceiling breach
      with its own message: both end as the generic 500. */
  lemma SeatsValidationIsServerError(s: Store, pathId: Id, seatsText: string)
    requires WellKeyed(s) && IsDecimal(seatsText)
    requires ChangeSeats.OrganizedBy(s, SeatsCommand(pathId, seatsText))
    requires !ChangeSeats.Permitted(s, SeatsCommand(pathId, seatsText))
    ensures PostSeats(s, pathId, seatsText).1 == Response(500, ErrorBody(GenericError))
  {
  }
}
