/** Records exchanged between the use cases and their gateways, the error
    type of a failed Slack lookup, and the reminder sink (the message log
    that every send appends to). */
module Boundary {

  /** Success or failure of an operation that throws in the C# use case. */
  datatype Result<+T, +E> = Ok(value: T) | Err(error: E)

  /** Completion of an operation that returns nothing but may throw. */
  datatype Outcome<+E> = Pass | Fail(error: E)

  /** A developer as listed by Harvest (the time-tracking service). */
  datatype HarvestDeveloper = HarvestDeveloper(id: int, email: string)

  /** One Harvest time entry: whose it is and how many hours it logs. */
  datatype TimeSheet = TimeSheet(userId: int, hours: real)

  /** A user of the Slack directory. */
  datatype SlackDeveloper = SlackDeveloper(id: string, email: string)

  /** A billable person already resolved to a Slack id. */
  datatype BillablePerson = BillablePerson(id: string)

  /** Why `Single` threw when looking up a Slack user by email. */
  datatype LookupError =
    | NoSlackMatch(email: string)
    | MultipleSlackMatches(email: string)

  /** A reminder as handed to the send-reminder boundary. */
  datatype Message = Message(channel: string, text: string)

  /** The send-reminder boundary: each send is appended to `sent`,
      channel and text passed through unchanged. */
  class ReminderSink {
    var sent: seq<Message>

    constructor ()
      ensures sent == []
    {
      sent := [];
    }

    method Execute(request: Message)
      modifies this
      ensures sent == old(sent) + [request]
    {
      sent := sent + [request];
    }
  }
}
