/** The failures a use case can end with, one per exception class, together
    with the message each carries. */
module Exceptions {

  /** Failures raised by the storage adapter rather than by a business rule. */
  datatype RepositoryError =
    | DuplicateId(id: string)
    | MissingId(id: string)

  datatype Failure =
    | WebinarNotFound
    | WebinarNotOrganizer
    | SeatReduction
    | WebinarDatesTooSoon
    | WebinarTooManySeats
    | StorageFault(cause: RepositoryError)

  const NotFoundMessage := "Webinar not found"
  const NotOrganizerMessage := "User is not allowed to update this webinar"
  const SeatReductionMessage := "You cannot reduce the number of seats"
  const DatesTooSoonMessage := "Webinar must be scheduled at least 3 days in advance"
  const TooManySeatsMessage := "Webinar must have at most 1000 seats"
  const StorageFaultMessage := "Repository failure"

  /** The `message` of the exception that reports `f`. */
  function Message(f: Failure): (m: string) {
    match f
    case WebinarNotFound => NotFoundMessage
    case WebinarNotOrganizer => NotOrganizerMessage
    case SeatReduction => SeatReductionMessage
    case WebinarDatesTooSoon => DatesTooSoonMessage
    case WebinarTooManySeats => TooManySeatsMessage
    case StorageFault(_) => StorageFaultMessage
  }
}
