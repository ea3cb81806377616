/** The webinar entity, the user consumed by the use cases, and the business
    constants shared by both use cases. */
module Webinars {

  type Id = string

  /** Instants are integer milliseconds since the Unix epoch, the resolution of
      a JavaScript Date. */
  type Instant = int

  const SecondMs: int := 1000
  const DayMs: int := 24 * 60 * 60 * SecondMs

  /** A webinar must start at least this long after the instant it is organized. */
  const MinimumLeadTime: int := 3 * DayMs

  /** Seat ceiling, enforced both at creation and on every seat change. */
  const MaxSeats: int := 1000

  datatype Webinar = Webinar(
    id: Id,
    organizerId: Id,
    title: string,
    startDate: Instant,
    endDate: Instant,
    seats: int
  )

  /** Only `id` is consulted by the use cases; the other fields are carried
      because the seats endpoint builds a complete user. */
  datatype User = User(id: Id, email: string, password: string)
}
