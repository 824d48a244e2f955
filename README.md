# Late-developer reminder pipeline (Dafny model)

A Dafny model of the use-case layer of CryptoTechReminderSystem, the
service that reconciles Harvest time sheets with the Slack directory and
nudges people who have not logged their hours.

Three use cases are modelled, one module each, over shared records in
`Boundary` (`boundary.dfy`):

- `GetLateDevelopers` (`get_late_developers.dfy`): for every Harvest
  developer, in list order, the hours of that developer's time sheets are
  summed. A developer with strictly fewer than 35 hours is late. Each late
  developer is resolved by email to exactly one Slack user, whose id is
  appended to the output. LINQ `Single` throws when there is no match or
  more than one. The model returns that as `Err(NoSlackMatch(email))` or
  `Err(MultipleSlackMatches(email))`. `Execute` is the loop, proved equal to
  the specification function `LateIds`, and the lemmas about `LateIds` give
  what the use case promises.
- `RemindLateDevelopers` (`remind_late_developers.dfy`): a pure gate on one
  clock reading (Unix seconds divisible by 1800, hour before 14, Friday).
  When the gate is open, the late list is asked for once and one reminder per
  late id is sent, in order. Each reminder has channel = the id and
  text = the request message. When the gate is closed, nothing is asked and
  nothing is sent. The use case is a class whose collaborators are a
  late-developer source and a `ReminderSink`. The source answers with
  `GetLateDevelopers` over fixed gateway responses and counts its queries.
  The sink appends every send to its `sent` log.
- `ListLateBillablePeople` (`list_late_billable_people.dfy`): one message
  to the request's channel. When the roster is empty, the text is the
  "no late people" message. Otherwise the text is the header followed by
  `"\n• <@" + id + ">"` per person, built by the left fold `Aggregate`. The
  fold is proved equal to an independent concatenation `Mentions`.

Hours are `real` (C#'s `float`, without rounding). The three
gateway responses of `GetLateDevelopers` are parameters of `Execute`: each is
read once, before the loop, as in `GetLateDevelopers.cs`.

## Model

| member | source | states |
|---|---|---|
| GetLateDevelopers.SheetsFor | CryptoTechReminderSystem/UseCase/GetLateDevelopers.cs:30 | the `Where`: the time sheets whose user id is the developer's id, in sheet-list order |
| GetLateDevelopers.SumOfHours | CryptoTechReminderSystem/UseCase/GetLateDevelopers.cs:31 | the `Sum`: the total of the hours of the given sheets, 0 for none |
| GetLateDevelopers.HoursFor | CryptoTechReminderSystem/UseCase/GetLateDevelopers.cs:30-31 | a developer's hours: the sum over the sheets the `Where` keeps for that user id |
| GetLateDevelopers.IsLate | CryptoTechReminderSystem/UseCase/GetLateDevelopers.cs:32 | a developer is late when their hours are strictly below 35 |
| GetLateDevelopers.LateDevelopers | CryptoTechReminderSystem/UseCase/GetLateDevelopers.cs:28-32 | the Harvest developers that pass the `< 35` test, in Harvest order |
| GetLateDevelopers.SheetsForCounts | CryptoTechReminderSystem/UseCase/GetLateDevelopers.cs:30 | the per-developer filter keeps every time sheet of that user id, with its multiplicity, and no other sheet |
| GetLateDevelopers.SumOfHoursAppend | CryptoTechReminderSystem/UseCase/GetLateDevelopers.cs:31 | the hour sum is additive over concatenation |
| GetLateDevelopers.SheetsForAppend | CryptoTechReminderSystem/UseCase/GetLateDevelopers.cs:30 | filtering by user id distributes over concatenation, so order is kept |
| GetLateDevelopers.HoursForAppend | CryptoTechReminderSystem/UseCase/GetLateDevelopers.cs:30-31 | a developer's hours over a split sheet list are the sum of the hours of the parts |
| GetLateDevelopers.OtherUsersIgnored | CryptoTechReminderSystem/UseCase/GetLateDevelopers.cs:30-31 | inserting a sheet of another user anywhere leaves a developer's sum unchanged |
| GetLateDevelopers.NoSheetsMeansLate | CryptoTechReminderSystem/UseCase/GetLateDevelopers.cs:30-32 | a developer with no sheets of their own sums 0 hours and is late |
| GetLateDevelopers.Single | CryptoTechReminderSystem/UseCase/GetLateDevelopers.cs:34 | the lookup answers the id of the only entry with that email; it fails with NoSlackMatch iff no entry has the email, and with MultipleSlackMatches iff two positions have it |
| GetLateDevelopers.ShiftMatches | CryptoTechReminderSystem/UseCase/GetLateDevelopers.cs:34 | two matches in a directory are either the head plus one in the tail or two in the tail |
| GetLateDevelopers.LateDevelopersMembers | CryptoTechReminderSystem/UseCase/GetLateDevelopers.cs:28-32 | the late developers are no more than the input and hold every developer under 35 hours and only those |
| GetLateDevelopers.LateIds | CryptoTechReminderSystem/UseCase/GetLateDevelopers.cs:24-38 | on success the id list is no longer than the Harvest list |
| GetLateDevelopers.LateIdsFailureSticks | CryptoTechReminderSystem/UseCase/GetLateDevelopers.cs:34 | once a lookup has failed, later developers do not change the outcome (the exception ends the loop) |
| GetLateDevelopers.LateIdsSucceedsIff | CryptoTechReminderSystem/UseCase/GetLateDevelopers.cs:32-34 | the run succeeds iff every late developer has exactly one Slack match; matches of developers who are not late never matter |
| GetLateDevelopers.LateIdsContents | CryptoTechReminderSystem/UseCase/GetLateDevelopers.cs:28-36 | on success there is one id per late developer, in Harvest order, and id k is the only Slack match of late developer k |
| GetLateDevelopers.LateDevelopersAppend | CryptoTechReminderSystem/UseCase/GetLateDevelopers.cs:28-36 | the late filter distributes over concatenation, so output order follows input order |
| GetLateDevelopers.SlackConsultedOnlyForLate | CryptoTechReminderSystem/UseCase/GetLateDevelopers.cs:32-35 | two Slack directories that answer alike for the late developers give the same result |
| GetLateDevelopers.Execute | CryptoTechReminderSystem/UseCase/GetLateDevelopers.cs:19-39 | the loop over Harvest developers returns exactly LateIds of its three inputs, including the first lookup error |
| GetLateDevelopers.ThresholdBoundary | CryptoTechReminderSystem/UseCase/GetLateDevelopers.cs:31-35 | exactly 35 hours is not late, 34.99 is, and a late developer without a Slack match fails the run |
| RemindLateDevelopers.IsHalfHourInterval | CryptoTechReminderSystem/UseCase/RemindLateDevelopers.cs:19-22 | the Unix seconds of the clock reading leave remainder 0 when divided by 1800 |
| RemindLateDevelopers.IsBeforeTwoPm | CryptoTechReminderSystem/UseCase/RemindLateDevelopers.cs:24-27 | the hour of the clock reading is below 14 |
| RemindLateDevelopers.IsFriday | CryptoTechReminderSystem/UseCase/RemindLateDevelopers.cs:30 | the day of week of the clock reading is Friday |
| RemindLateDevelopers.ShouldRemind | CryptoTechReminderSystem/UseCase/RemindLateDevelopers.cs:30 | the gate: half-hour interval, before two pm and Friday, all three |
| RemindLateDevelopers.Reminders | CryptoTechReminderSystem/UseCase/RemindLateDevelopers.cs:33-40 | the batch the `foreach` sends: for each late id, in order, a message with channel = the id and text = the request message |
| RemindLateDevelopers.HalfHourIntervalIsMultiple | CryptoTechReminderSystem/UseCase/RemindLateDevelopers.cs:19-22 | the half-hour test holds iff the Unix seconds are a whole multiple of 1800 |
| RemindLateDevelopers.GridShift | CryptoTechReminderSystem/UseCase/RemindLateDevelopers.cs:19-22 | from a grid instant, a shift lands on the grid iff it is a whole number of half hours, so 15-minute offsets never fire |
| RemindLateDevelopers.RemindersAt | CryptoTechReminderSystem/UseCase/RemindLateDevelopers.cs:33-40 | the batch has one entry per late id, duplicates included, entry i addressed to id i with the request's message |
| RemindLateDevelopers.LateDeveloperSource.Execute | CryptoTechReminderSystem/UseCase/RemindLateDevelopers.cs:32 | a query answers the late-developer result and counts one more query |
| RemindLateDevelopers.RemindLateDevelopers.Execute | CryptoTechReminderSystem/UseCase/RemindLateDevelopers.cs:28-42 | closed gate: no query, no send; open gate: one query, then either the lookup error with no send or the whole batch appended in order |
| RemindLateDevelopers.RemindTwice | CryptoTechReminderSystem/UseCase/RemindLateDevelopers.cs:28-42 | two calls at the same open instant append the batch twice |
| RemindLateDevelopers.FridaySchedule | CryptoTechReminderSystem/UseCase/RemindLateDevelopers.cs:19-30 | on Friday 1 March 2019 the gate opens at every half hour from 10:30 to 13:30 and stays shut at 10:15, 10:45, 14:00 and on Thursday |
| ListLateBillablePeople.Mention | CryptoTechReminderSystem/UseCase/ListLateBillablePeople.cs:29 | the lambda's suffix for one person: `"\n• <@" + id + ">"` |
| ListLateBillablePeople.Aggregate | CryptoTechReminderSystem/UseCase/ListLateBillablePeople.cs:27-30 | the `Aggregate` call: the left fold from `seed`, appending `"\n• <@" + id + ">"` per person in roster order |
| ListLateBillablePeople.AggregateIsSeedAndMentions | CryptoTechReminderSystem/UseCase/ListLateBillablePeople.cs:27-30 | the left fold equals the header followed by every mention, in roster order |
| ListLateBillablePeople.MentionsAppend | CryptoTechReminderSystem/UseCase/ListLateBillablePeople.cs:29 | the mentions of a concatenated roster are the concatenated mentions |
| ListLateBillablePeople.AggregateStep | CryptoTechReminderSystem/UseCase/ListLateBillablePeople.cs:29 | one more person extends the text by exactly that person's mention line |
| ListLateBillablePeople.MentionsSplit | CryptoTechReminderSystem/UseCase/ListLateBillablePeople.cs:27-30 | person k's mention sits between those of the people before and after them |
| ListLateBillablePeople.Text | CryptoTechReminderSystem/UseCase/ListLateBillablePeople.cs:20-31 | empty roster: exactly the "no late people" message; otherwise the header followed by the mentions |
| ListLateBillablePeople.HeaderThenMentions | CryptoTechReminderSystem/UseCase/ListLateBillablePeople.cs:27-30 | for a non-empty roster the header is a prefix of the text and person k's mention line is found at the offset fixed by the people before them |
| ListLateBillablePeople.MentionsOfThree | CryptoTechReminderSystem/UseCase/ListLateBillablePeople.cs:27-30 | a roster of three gives the header followed by the three mention lines in roster order |
| ListLateBillablePeople.ThreeLatePeople | CryptoTechReminderSystem/UseCase/ListLateBillablePeople.cs:27-30 | the ids W123AROB, W345ABAT, W345ALFR give the header then three mention lines in that order |
| ListLateBillablePeople.LateBillablePeopleSource.Execute | CryptoTechReminderSystem/UseCase/ListLateBillablePeople.cs:19 | a query answers the fixed roster and counts one more query |
| ListLateBillablePeople.ListLateBillablePeople.Execute | CryptoTechReminderSystem/UseCase/ListLateBillablePeople.cs:17-38 | the roster is asked for once and exactly one message, addressed to the request's channel with the chosen text, is appended |

## Left out

- HTTP transport of the Harvest and Slack gateways (`HarvestGateway.cs`,
  `SlackGateway.cs`): their responses are input sequences and the send is an
  append to a log. This includes the Slack gateway posting each message
  twice and its stub directory listing.
- A send that fails: `ReminderSink.Execute` always succeeds. In C#, a send
  that throws ends the `foreach` of `RemindLateDevelopers.cs` (lines 33-40)
  early, after the reminders before it have already gone out; the model
  does not capture that partial batch.
- Pagination and active/role filtering of people: `HarvestGateway.cs`
  requests `/api/v2/users` and `/api/v2/time_entries` once each, with no
  page parameter and no active or role filter, so no such step exists in
  the modelled core.
- Floating point: hours are exact reals, with no `float` rounding.
- The clock: time zones, offsets and up to three reads of "now" per call
  (the `&&` short-circuits) are replaced by one `Instant` (Unix seconds, hour, day of week) read
  once. Its three fields are independent, so the model does not tie the
  hour or the day to the Unix seconds.
- Process startup, `.env` loading and hard-coded ids (`Program.cs`).
- The send-reminder, remind-billable-people and get-late-billable-people
  classes and the boundary interfaces are not part of this model. They appear
  only as the sink and source collaborators.
- The get-late-billable-people source is modelled as never failing,
  because its implementation is not part of this model.
