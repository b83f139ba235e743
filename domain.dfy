/** The records both bot modules share: what the bank, the flight feed and
    the operators hand to the engine, what the engine stores, and what it
    sends back to the chat. */
module Domain {

  datatype Option<+T> = None | Some(value: T)

  /** A Python exception the engine can observe: its class and `str(e)`. */
  datatype Exception =
    | ValueError(msg: string)
    | ClientError(msg: string)        // aiohttp.ClientError, raised by HTTP lookups
    | OtherError(name: string, msg: string)

  /** What a call into an unseen collaborator does: return a value or raise. */
  datatype Outcome<+T> = Returned(value: T) | Raised(exc: Exception)

  /** A calendar date (the `date` of a flight, `date.today()`). */
  datatype Date = Date(year: int, month: int, day: int)

  /** An enumeration value of `Membership` / `Membership.Type`. Only `daily`
      and `yearly` have behaviour of their own; any further value is kept by
      its name. */
  datatype MembershipType = Daily | Yearly | OtherType(name: string)

  /** A pilot as the flight feed knows them; `id` is filled in by `load_id`. */
  datatype Pilot = Pilot(username: string, id: int)

  /** A bank transaction; the amount (a decimal sum of money) is opaque to
      the engine and only ever handed to the classifier. */
  datatype Transaction = Transaction(id: string, amount: real)

  /** A flight record: its id, the pilot, and the date of its take-off. */
  datatype Flight = Flight(id: string, pilot: Pilot, date: Date)

  /** An answer to an operator's command. */
  datatype Reply =
    | HelpHint(error: string)                               // f"{e}. Please see /help"
    | AlreadyPaired(existingType: MembershipType, username: string)
    | Paired                                                // "Okay, paired"

  /** A message the bot posts: the two chat notifications (rendered by a
      module outside this model) and answers to commands. */
  datatype Message =
    | NewTransaction(transaction: Transaction, suggested: Option<MembershipType>)
    | OffendingFlight(flight: Flight)
    | Answer(reply: Reply)

  /** The text of an answer; `typeValue` is the unseen `.value` of an
      enumeration member. */
  function ReplyText(r: Reply, typeValue: MembershipType -> string): string {
    match r
    case HelpHint(e) => e + ". Please see /help"
    case AlreadyPaired(t, u) =>
      "This transaction is already paired as " + typeValue(t) + " for pilot " + u + "."
    case Paired => "Okay, paired"
  }
}
