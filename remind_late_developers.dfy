/** Time-gated reminder dispatch: on a Friday, at a half-hour boundary
    before 14:00, every late developer gets the request's message sent to
    their Slack id; at any other instant nothing happens and the late list
    is not even asked for. */
module RemindLateDevelopers {
  import opened Boundary
  import GetLateDevelopers

  datatype DayOfWeek = Sunday | Monday | Tuesday | Wednesday | Thursday | Friday | Saturday

  /** One reading of the clock: Unix seconds, the hour of day and the day of
      week of the same instant. */
  datatype Instant = Instant(unixSeconds: int, hour: int, dayOfWeek: DayOfWeek)

  datatype RemindLateDevelopersRequest = RemindLateDevelopersRequest(message: string)

  /** Seconds in half an hour. */
  const HalfHour: int := 1800

  /** Reminders stop at this hour of the day. */
  const CutOffHour: int := 14

  // ---------------------------------------------------------------------
  // The gate
  // ---------------------------------------------------------------------

  /** C#'s truncating `%` on `long` and Dafny's Euclidean one agree
      on whether the remainder is zero, so the test reads the same. */
  predicate IsHalfHourInterval(now: Instant)
  {
    now.unixSeconds % HalfHour == 0
  }

  predicate IsBeforeTwoPm(now: Instant)
  {
    now.hour < CutOffHour
  }

  predicate IsFriday(now: Instant)
  {
    now.dayOfWeek == Friday
  }

  /** The condition Execute tests before doing anything. */
  predicate ShouldRemind(now: Instant)
  {
    IsHalfHourInterval(now) && IsBeforeTwoPm(now) && IsFriday(now)
  }

  /** An instant is on the half-hour grid exactly when it is a whole number
      of half hours away from the epoch. */
  lemma HalfHourIntervalIsMultiple(now: Instant)
    ensures IsHalfHourInterval(now) <==> exists k :: now.unixSeconds == HalfHour * k
  {
    if IsHalfHourInterval(now) {
      assert now.unixSeconds == HalfHour * (now.unixSeconds / HalfHour);
    }
  }

  /** Moving a grid instant by some seconds lands on the grid again exactly
      when the shift is a whole number of half hours; a shift of 15 minutes
      (10:15, 10:45) never does. */
  lemma GridShift(now: Instant, seconds: int)
    requires IsHalfHourInterval(now)
    ensures IsHalfHourInterval(now.(unixSeconds := now.unixSeconds + seconds)) <==> seconds % HalfHour == 0
  {
  }

  // ---------------------------------------------------------------------
  // The batch sent when the gate is open
  // ---------------------------------------------------------------------

  /** One message per late developer, in list order, each addressed to the
      developer's Slack id and carrying `text`. */
  function Reminders(lateDevelopers: seq<string>, text: string): seq<Message>
  {
    if lateDevelopers == [] then []
    else Reminders(lateDevelopers[..|lateDevelopers| - 1], text) + [Message(lateDevelopers[|lateDevelopers| - 1], text)]
  }

  /** The batch has exactly one entry per id, duplicates included, with
      channel = the id and text unchanged. */
  lemma {:induction false} RemindersAt(lateDevelopers: seq<string>, text: string)
    ensures |Reminders(lateDevelopers, text)| == |lateDevelopers|
    ensures forall i :: 0 <= i < |lateDevelopers| ==> Reminders(lateDevelopers, text)[i] == Message(lateDevelopers[i], text)
    decreases |lateDevelopers|
  {
    if lateDevelopers != [] {
      RemindersAt(lateDevelopers[..|lateDevelopers| - 1], text);
    }
  }

  // ---------------------------------------------------------------------
  // The collaborators and the use case
  // ---------------------------------------------------------------------

  /** The get-late-developers boundary: answers with GetLateDevelopers over
      fixed gateway responses and counts how often it was asked. */
  class LateDeveloperSource {
    const harvestDevelopers: seq<HarvestDeveloper>
    const slackDevelopers: seq<SlackDeveloper>
    const timeSheets: seq<TimeSheet>
    var queries: nat

    constructor (harvestDevelopers: seq<HarvestDeveloper>, slackDevelopers: seq<SlackDeveloper>,
                 timeSheets: seq<TimeSheet>)
      ensures this.harvestDevelopers == harvestDevelopers && this.slackDevelopers == slackDevelopers
      ensures this.timeSheets == timeSheets && queries == 0
    {
      this.harvestDevelopers := harvestDevelopers;
      this.slackDevelopers := slackDevelopers;
      this.timeSheets := timeSheets;
      queries := 0;
    }

    /** What every query answers. */
    function Response(): Result<seq<string>, LookupError>
    {
      GetLateDevelopers.LateIds(harvestDevelopers, slackDevelopers, timeSheets)
    }

    method Execute() returns (response: Result<seq<string>, LookupError>)
      modifies this
      ensures response == Response()
      ensures queries == old(queries) + 1
    {
      response := GetLateDevelopers.Execute(harvestDevelopers, slackDevelopers, timeSheets);
      queries := queries + 1;
    }
  }

  class RemindLateDevelopers {
    const getLateDevelopers: LateDeveloperSource
    const sendReminder: ReminderSink

    constructor (getLateDevelopers: LateDeveloperSource, sendReminder: ReminderSink)
      ensures this.getLateDevelopers == getLateDevelopers && this.sendReminder == sendReminder
    {
      this.getLateDevelopers := getLateDevelopers;
      this.sendReminder := sendReminder;
    }

    /** Closed gate: nothing is asked, nothing is sent. Open gate: the late
        list is asked for once; a failed lookup propagates before any send,
        otherwise one reminder per late developer is appended in order. */
    method Execute(request: RemindLateDevelopersRequest, now: Instant) returns (outcome: Outcome<LookupError>)
      modifies getLateDevelopers, sendReminder
      ensures !ShouldRemind(now) ==>
        outcome == Pass && sendReminder.sent == old(sendReminder.sent) &&
        getLateDevelopers.queries == old(getLateDevelopers.queries)
      ensures ShouldRemind(now) ==> getLateDevelopers.queries == old(getLateDevelopers.queries) + 1
      ensures ShouldRemind(now) && getLateDevelopers.Response().Err? ==>
        outcome == Fail(getLateDevelopers.Response().error) && sendReminder.sent == old(sendReminder.sent)
      ensures ShouldRemind(now) && getLateDevelopers.Response().Ok? ==>
        outcome == Pass &&
        sendReminder.sent == old(sendReminder.sent) + Reminders(getLateDevelopers.Response().value, request.message)
    {
      if ShouldRemind(now) {
        var lateDevelopers := getLateDevelopers.Execute();
        if lateDevelopers.Err? {
          return Fail(lateDevelopers.error);
        }
        var ids := lateDevelopers.value;
        var i := 0;
        while i < |ids|
          invariant 0 <= i <= |ids|
          invariant getLateDevelopers.queries == old(getLateDevelopers.queries) + 1
          invariant sendReminder.sent == old(sendReminder.sent) + Reminders(ids[..i], request.message)
        {
          assert ids[..i + 1][..i] == ids[..i];
          sendReminder.Execute(Message(ids[i], request.message));
          i := i + 1;
        }
        assert ids[..i] == ids;
      }
      outcome := Pass;
    }
  }

  /** Two calls at the same open instant send the whole batch twice: sends
      are neither deduplicated nor remembered across calls. */
  method RemindTwice(useCase: RemindLateDevelopers, request: RemindLateDevelopersRequest, now: Instant)
    requires ShouldRemind(now) && useCase.getLateDevelopers.Response().Ok?
    modifies useCase.getLateDevelopers, useCase.sendReminder
    ensures useCase.getLateDevelopers.queries == old(useCase.getLateDevelopers.queries) + 2
    ensures useCase.sendReminder.sent ==
      old(useCase.sendReminder.sent) + Reminders(useCase.getLateDevelopers.Response().value, request.message)
                                     + Reminders(useCase.getLateDevelopers.Response().value, request.message)
  {
    var first := useCase.Execute(request, now);
    var second := useCase.Execute(request, now);
  }

  /** On Friday 1 March 2019 (UTC), the half-hour instants from 10:30 to
      13:30 open the gate; 10:15, 10:45, 14:00 and the same time on a
      Thursday do not. */
  lemma FridaySchedule()
    ensures forall k :: 21 <= k <= 27 ==> ShouldRemind(Instant(1551398400 + HalfHour * k, k / 2, Friday))
    ensures !ShouldRemind(Instant(1551435300, 10, Friday))
    ensures !ShouldRemind(Instant(1551437100, 10, Friday))
    ensures !ShouldRemind(Instant(1551448800, 14, Friday))
    ensures !ShouldRemind(Instant(1551349800, 10, Thursday))
  {
  }
}
