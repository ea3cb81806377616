# Webinar scheduling — a Dafny model

This project models the business core of a small webinar-scheduling service:
the two use cases "organize a webinar" and "change seats", the webinar
repository they run against, and the HTTP adapter that turns their outcomes
into status codes and JSON bodies.

- `webinar.dfy` (`Webinars`): the webinar record (id, organizer, title,
  start and end instants, seats), the user, and the constants: the
  1000-seat ceiling and the three-day lead time. Instants are integer
  milliseconds, the resolution of a JavaScript `Date`.
- `exceptions.dfy` (`Exceptions`): one failure per exception the use cases
  throw, with its message. Storage faults are a separate kind.
- `repository.dfy` (`Repository`): the repository as a finite map from id to
  record. It has `create`, `findById`, `update` and `delete`, and the
  in-memory adapter's seeding from a list. `WellKeyed` says every record is
  stored under its own id; every operation keeps it.
- `change_seats.dfy` (`ChangeSeats`): the seat-change decision. It also has
  `Replay`, which applies a history of requests, and the invariants a history
  keeps: seats never decrease, no record is added, removed or re-owned, and
  the ceiling is never breached.
- `organize_webinar.dfy` (`OrganizeWebinars`): the creation decision, with
  the clock and the id source passed in as values.
- `routes.dfy` (`Routes`): both endpoints, from request fields to the store
  afterwards and the response. This includes the base-10 reading of the
  seats text and its inverse.
- `change_seats_scenarios.dfy`, `api_scenarios.dfy`,
  `repository_scenarios.dfy`: the scenarios of the unit, end-to-end and
  integration tests, one lemma each.

The behaviour of the use cases, the entity and the repositories is taken from
what the tests and the route handler fix. Each use case returns the store as
it leaves it together with its result, so "a failure writes nothing" is a
property of the use case's body rather than of its result type. Where the
tests and the handler leave a choice open, the model decides as follows:

- **Check order.** ChangeSeats checks existence, then that the user is the
  organizer, then that seats are not reduced, then the 1000-seat ceiling.
  Organize checks the three-day lead time before the seat ceiling. Each test
  breaks exactly one rule, so the tests do not fix this order. The contracts
  state it, and a request that breaks several rules reports the first.
- **Lead time.** A start date strictly before `now + 3 days` is too soon.
  Exactly three days is accepted.
- **No lower bound on seats.** Creation checks only the lead time and the
  1000-seat ceiling, so a stored webinar can hold 0 or negative seats
  (`OrganizeWebinars.OrganizeAcceptsNonPositiveSeats`). Seat changes never
  lower a count (`ChangeSeats.ReplayEvolves`), so any lower bound that holds
  when a webinar is created keeps holding.
- **Repository.** `create` refuses an id that is already stored, because the
  id is the primary key. `update` of a missing id fails. `delete` of a
  missing id does nothing. `update` overwrites title, dates and seats and
  keeps id and organizer. A duplicate id from the id source makes Organize
  fail with a storage failure, which the route answers with 500.

## Model

| member | source | states |
|---|---|---|
| Repository.FindById | src/webinars/adapters/webinar-repository.prisma.int.test.ts:55-91 | the lookup finds a record exactly when the id is stored, returns the stored record unchanged, and in a well-keyed store that record carries the looked-up id |
| Repository.Create | src/webinars/adapters/webinar-repository.prisma.int.test.ts:25-53 | create succeeds exactly when the id is new; afterwards a lookup of the id yields the created webinar in all six fields, one key is added and every other record is untouched; a repeated id is refused |
| Repository.Update | src/webinars/adapters/webinar-repository.prisma.int.test.ts:93-136 | update of a stored id overwrites title, dates and seats with the given ones, keeps the stored id and organizer, keeps the key set and leaves other records alone; a missing id is refused |
| Repository.Delete | src/webinars/adapters/webinar-repository.prisma.int.test.ts:138-170 | after delete a lookup of the id is absent, exactly that key is removed, other records are untouched, and deleting an absent id changes nothing |
| Repository.Seed | src/webinars/use-cases/change-seats.test.ts:37-40 | seeding the in-memory repository stores every listed id and nothing else (every stored record is one of the seeds, under its own id), and each id finds the first seed that carries it |
| Repository.SeedFindsEveryWebinar | src/webinars/use-cases/change-seats.test.ts:37-40 | with distinct ids, every seed is found under its own id |
| ChangeSeats.Execute | src/webinars/use-cases/change-seats.test.ts:43-106 | unknown id fails not-found; a user other than the organizer fails not-allowed; fewer seats than stored fails reduction; more than 1000 fails too-many-seats; on any failure the store it leaves is the store it found; it succeeds exactly when all four rules pass, and then only the target's seat count changes, to the requested value |
| ChangeSeats.ExecuteEvolves | src/webinars/use-cases/change-seats.test.ts:84-106 | one request keeps the key set, never lowers a seat count, changes no id, organizer, title or date, touches only the targeted record, and changes nothing when refused |
| ChangeSeats.ReplayEvolves | src/webinars/use-cases/change-seats.test.ts:84-94 | over any history of seat-change requests, every record keeps its id, organizer, title and dates, no record appears or disappears, and no seat count ever decreases |
| ChangeSeats.ReplayKeepsCapacity | src/webinars/use-cases/change-seats.test.ts:96-106 | if every record is within 1000 seats, it still is after any history of seat-change requests |
| ChangeSeats.ExecuteIdempotent | src/webinars/use-cases/change-seats.test.ts:43-58 | repeating a successful seat change succeeds again and yields the same store as the first call |
| ChangeSeatsScenarios.FailureLeavesStoreUnchanged | src/webinars/use-cases/change-seats.test.ts:14-17 | for any store and any failing request, the store the use case leaves behind is the store before, and a lookup of the targeted id finds what it found before |
| ChangeSeatsScenarios.HappyPath | src/webinars/use-cases/change-seats.test.ts:43-58 | alice raising her webinar from 100 to 200 seats succeeds and the stored webinar then has 200 seats |
| ChangeSeatsScenarios.WebinarDoesNotExist | src/webinars/use-cases/change-seats.test.ts:60-70 | an unknown webinar id fails with "Webinar not found" and the seeded webinar keeps 100 seats |
| ChangeSeatsScenarios.WebinarOfSomeoneElse | src/webinars/use-cases/change-seats.test.ts:72-82 | bob changing alice's webinar fails with "User is not allowed to update this webinar" and seats stay 100 |
| ChangeSeatsScenarios.ReduceSeats | src/webinars/use-cases/change-seats.test.ts:84-94 | asking for 50 seats on a 100-seat webinar fails with "You cannot reduce the number of seats" and seats stay 100 |
| ChangeSeatsScenarios.MoreThanMaxSeats | src/webinars/use-cases/change-seats.test.ts:96-106 | asking for 1100 seats fails with "Webinar must have at most 1000 seats" and seats stay 100 |
| OrganizeWebinars.Execute | src/api.e2e.test.ts:121-207 | a start date earlier than now plus three days fails too-soon, which takes precedence; otherwise more than 1000 seats fails too-many-seats; on any failure the store it leaves is the store it found; it succeeds exactly when both rules pass and the id is new, and then returns the generated id and adds one record whose organizer is the command's user and whose other fields are the command's; a taken id is a storage failure |
| OrganizeWebinars.OrganizedIsFound | src/api.e2e.test.ts:146-151 | after a successful organize, looking up the returned id yields the new webinar, which starts at least three days after the clock and has at most 1000 seats |
| OrganizeWebinars.OrganizeKeepsCapacity | src/api.e2e.test.ts:182-207 | organizing a webinar keeps every stored record within 1000 seats |
| OrganizeWebinars.OrganizeAcceptsNonPositiveSeats | src/api.e2e.test.ts:121-153 | creation checks only the lead time and the ceiling: a request for zero or fewer seats with a valid date and a new id succeeds and stores that count |
| Routes.ParseDecimal | src/webinars/routes.ts:21 | reads a digit string in base 10, most significant digit first; its contract only bounds the value below ten to the power of the length, and the value itself is fixed by the round trips `Routes.ParseShowDecimal` and `Routes.ShowParseDecimal` |
| Routes.ParseLeadingZero | src/webinars/routes.ts:21 | a leading zero does not change the value read, so "030" reads as 30 |
| Routes.ParseShowDecimal | src/webinars/routes.ts:21 | reading the decimal text of any count in base 10 gives back that count |
| Routes.ShowParseDecimal | src/webinars/routes.ts:21 | every digit string without a leading zero is the decimal text of the value it reads as |
| Routes.SeatsCommandReadsBody | src/webinars/routes.ts:20-28 | the seats command carries the count written in the body, the webinar id from the path and the fixed user `test-user` |
| Routes.SeatsResponse | src/webinars/routes.ts:30-41 | success is 200 `{message: 'Seats updated'}`; not-found is 404 and not-organizer is 401, each with the failure's message; every other failure is 500 `{error: 'An error occurred'}` |
| Routes.PostSeats | src/webinars/routes.ts:16-42 | the seats endpoint answers 200 `{message: 'Seats updated'}` exactly when the webinar exists, is organized by `test-user` and the parsed count lies between its seats and 1000, and then stores the new count; 404 exactly for an unknown id and 401 exactly for another organizer, with their messages; otherwise 500 `{error: 'An error occurred'}`; on any non-200 the store is unchanged |
| Routes.SeatsValidationIsServerError | src/webinars/routes.ts:33-41 | on the seats endpoint a reduction or a ceiling breach by the organizer ends as 500 with the generic error body |
| Routes.OrganizeCommand | src/webinars/routes.ts:53-59 | the command copies the body unchanged: for any id, the record built from it has the body's user as organizer and the body's title, dates and seats (the end-to-end form is in `Routes.PostWebinars`) |
| Routes.OrganizeResponse | src/webinars/routes.ts:61-75 | success is 201 `{id, message: 'Webinar created with ' + id}`; too-soon and too-many-seats are 400 with the failure's message; every other failure is 500 with the generic error body |
| Routes.PostWebinars | src/webinars/routes.ts:44-76 | the organize endpoint answers 201 exactly when the body's start date is at least three days after the clock, its seats are at most 1000 and the generated id is new; the new record then holds the body's user as organizer and the body's title, seats and dates; too-soon and too-many-seats are 400 with their messages, too-soon taking precedence; anything else is 500; on any non-201 the store is unchanged |
| Routes.RepeatedIdIsServerError | src/webinars/routes.ts:67-75 | the organize endpoint answers 500 exactly when the rules pass but the generated id is already stored |
| ApiScenarios.UpdateSeats | src/api.e2e.test.ts:20-51 | POST seats "30" on a 10-seat webinar of `test-user` answers 200 `{message: 'Seats updated'}` and stores 30 seats |
| ApiScenarios.SeatsOfUnknownWebinar | src/api.e2e.test.ts:53-84 | POST seats on an unknown id answers 404 `{error: 'Webinar not found'}` and the existing webinar keeps 10 seats |
| ApiScenarios.SeatsOfSomeoneElsesWebinar | src/api.e2e.test.ts:86-119 | POST seats on a webinar of `test-user2` answers 401 with the not-allowed message and seats stay 10 |
| ApiScenarios.CreateWebinar | src/api.e2e.test.ts:121-153 | a valid organize request answers 201 with id `id-1` and message "Webinar created with id-1", and the stored record's seats and organizer are the request's |
| ApiScenarios.WebinarTooSoon | src/api.e2e.test.ts:155-180 | for every clock reading less than three days before the start date, the request answers 400 "Webinar must be scheduled at least 3 days in advance" and nothing is stored |
| ApiScenarios.WebinarTooManySeats | src/api.e2e.test.ts:182-207 | a request for 1500 seats with a valid date answers 400 "Webinar must have at most 1000 seats" and nothing is stored |
| RepositoryScenarios.CreateWebinar | src/webinars/adapters/webinar-repository.prisma.int.test.ts:25-53 | creating the sample webinar in an empty database makes its id yield a record equal to it in all six fields |
| RepositoryScenarios.FindWebinar | src/webinars/adapters/webinar-repository.prisma.int.test.ts:55-91 | looking up the stored sample webinar yields its properties unchanged |
| RepositoryScenarios.UpdateWebinar | src/webinars/adapters/webinar-repository.prisma.int.test.ts:93-136 | updating the title and seats of the sample stores the new title and 200 seats with id, organizer and dates as before |
| RepositoryScenarios.DeleteWebinar | src/webinars/adapters/webinar-repository.prisma.int.test.ts:138-170 | after deleting the sample webinar its id yields absent |

## Left out

- Server setup, request and response plumbing, and JSON serialization. An endpoint is a function from request fields to the store afterwards and the response. The organize body's seats are a JSON number, so a fractional count such as 100.5 passes both checks; the model's seats are integers and cannot express it.
- The database client, fixtures and `async`/`await`. The repository is a map, and each operation is one atomic step.
- Dependency wiring. The clock reading and the generated id are parameters. The test server's fixed clock value and fixed id are not part of this model. The organize scenarios hold for every clock reading on the tested side of the three-day limit.
- Routes.PostSeats, Routes.SeatsCommand, Routes.ParseDecimal: only seats text made of decimal digits is modelled. JavaScript `parseInt` also accepts a sign, surrounding whitespace and trailing junk, and gives NaN for text with no digits. Those inputs are left out.
- JavaScript `Date` parsing. Dates are integer millisecond instants.
- Sharing of webinar objects. The unit tests put one webinar object into every fresh in-memory repository, so a change made in place to a found webinar would carry over to later tests. Webinars here are values, so that sharing is not modelled.
- Concurrent seat changes on one webinar, and the lost updates they can cause.
- The test user seeds (alice, bob). Their ids are not part of this model, so the unit scenarios hold for any two users with distinct ids.
- The message of a storage failure is a placeholder. No endpoint ever shows it.
