/** Late-developer resolution: for every Harvest developer, in list order,
    sum the hours of their time sheets; a developer under 35 hours is late
    and is resolved to exactly one Slack user by email. The three gateway
    responses are fetched once, before the loop, and arrive here as
    parameters. */
module GetLateDevelopers {
  import opened Boundary

  /** Strictly fewer hours than this makes a developer late. */
  const LateThreshold: real := 35.0

  // ---------------------------------------------------------------------
  // Hours per developer (the Where / Sum expressions)
  // ---------------------------------------------------------------------

  /** The time sheets whose user is `userId`, in their original order. */
  function SheetsFor(sheets: seq<TimeSheet>, userId: int): seq<TimeSheet>
  {
    if sheets == [] then []
    else
      (if sheets[0].userId == userId then [sheets[0]] else []) + SheetsFor(sheets[1..], userId)
  }

  /** SheetsFor keeps every sheet of `userId`, as often as it occurs, and
      nothing else. */
  lemma {:induction false} SheetsForCounts(sheets: seq<TimeSheet>, userId: int, s: TimeSheet)
    ensures multiset(SheetsFor(sheets, userId))[s] == if s.userId == userId then multiset(sheets)[s] else 0
  {
    if sheets != [] {
      SheetsForCounts(sheets[1..], userId, s);
      assert sheets == [sheets[0]] + sheets[1..];
    }
  }

  /** Total hours logged by a sequence of time sheets. */
  function SumOfHours(sheets: seq<TimeSheet>): real
  {
    if sheets == [] then 0.0 else sheets[0].hours + SumOfHours(sheets[1..])
  }

  /** Hours logged by one Harvest user (zero when they have no sheets). */
  function HoursFor(sheets: seq<TimeSheet>, userId: int): real
  {
    SumOfHours(SheetsFor(sheets, userId))
  }

  predicate IsLate(developer: HarvestDeveloper, sheets: seq<TimeSheet>)
  {
    HoursFor(sheets, developer.id) < LateThreshold
  }

  lemma {:induction false} SumOfHoursAppend(a: seq<TimeSheet>, b: seq<TimeSheet>)
    ensures SumOfHours(a + b) == SumOfHours(a) + SumOfHours(b)
  {
    if a == [] {
      assert a + b == b;
    } else {
      assert (a + b)[0] == a[0] && (a + b)[1..] == a[1..] + b;
      SumOfHoursAppend(a[1..], b);
    }
  }

  lemma {:induction false} SheetsForAppend(a: seq<TimeSheet>, b: seq<TimeSheet>, userId: int)
    ensures SheetsFor(a + b, userId) == SheetsFor(a, userId) + SheetsFor(b, userId)
  {
    if a == [] {
      assert a + b == b;
    } else {
      assert (a + b)[0] == a[0] && (a + b)[1..] == a[1..] + b;
      SheetsForAppend(a[1..], b, userId);
    }
  }

  /** Hours are additive over any split of the time-sheet list. */
  lemma HoursForAppend(a: seq<TimeSheet>, b: seq<TimeSheet>, userId: int)
    ensures HoursFor(a + b, userId) == HoursFor(a, userId) + HoursFor(b, userId)
  {
    SheetsForAppend(a, b, userId);
    SumOfHoursAppend(SheetsFor(a, userId), SheetsFor(b, userId));
  }

  /** A time sheet of another user, wherever it sits, never changes a
      developer's sum. */
  lemma OtherUsersIgnored(a: seq<TimeSheet>, s: TimeSheet, b: seq<TimeSheet>, userId: int)
    requires s.userId != userId
    ensures HoursFor(a + [s] + b, userId) == HoursFor(a + b, userId)
  {
    HoursForAppend(a + [s], b, userId);
    HoursForAppend(a, [s], userId);
    HoursForAppend(a, b, userId);
    assert [s][1..] == [];
    assert SheetsFor([s], userId) == [];
  }

  /** A developer without time sheets has summed zero hours and is late. */
  lemma {:induction false} NoSheetsMeansLate(sheets: seq<TimeSheet>, developer: HarvestDeveloper)
    requires forall k :: 0 <= k < |sheets| ==> sheets[k].userId != developer.id
    ensures HoursFor(sheets, developer.id) == 0.0
    ensures IsLate(developer, sheets)
  {
    if sheets != [] {
      NoSheetsMeansLate(sheets[1..], developer);
      assert SheetsFor(sheets, developer.id) == [] + SheetsFor(sheets[1..], developer.id);
      assert [] + SheetsFor(sheets[1..], developer.id) == SheetsFor(sheets[1..], developer.id);
    }
  }

  // ---------------------------------------------------------------------
  // Slack lookup (LINQ Single with a predicate)
  // ---------------------------------------------------------------------

  /** `k` is the one and only position of `slack` holding `email`. */
  predicate IsOnlyMatch(slack: seq<SlackDeveloper>, email: string, k: int)
  {
    0 <= k < |slack| && slack[k].email == email &&
    forall j :: 0 <= j < |slack| && j != k ==> slack[j].email != email
  }

  /** The Slack id of the only Slack user with `email`; fails when there is
      none or more than one (duplicated entries count separately). */
  function Single(slack: seq<SlackDeveloper>, email: string): (r: Result<string, LookupError>)
    ensures r.Ok? || r == Err(NoSlackMatch(email)) || r == Err(MultipleSlackMatches(email))
    ensures r.Ok? ==> exists k :: IsOnlyMatch(slack, email, k) && slack[k].id == r.value
    ensures r == Err(NoSlackMatch(email)) <==> forall k :: 0 <= k < |slack| ==> slack[k].email != email
    ensures r == Err(MultipleSlackMatches(email)) <==>
      exists i, j :: 0 <= i < j < |slack| && slack[i].email == email && slack[j].email == email
  {
    if slack == [] then Err(NoSlackMatch(email))
    else
      var rest := Single(slack[1..], email);
      ShiftMatches(slack, email);
      if slack[0].email == email then
        if rest == Err(NoSlackMatch(email)) then
          assert IsOnlyMatch(slack, email, 0);
          Ok(slack[0].id)
        else
          Err(MultipleSlackMatches(email))
      else
        if rest.Ok? then
          var k :| IsOnlyMatch(slack[1..], email, k) && slack[1..][k].id == rest.value;
          assert IsOnlyMatch(slack, email, k + 1);
          rest
        else
          rest
  }

  /** How matches in the tail of a directory relate to matches in the whole. */
  lemma ShiftMatches(slack: seq<SlackDeveloper>, email: string)
    requires slack != []
    ensures (exists i, j :: 0 <= i < j < |slack| && slack[i].email == email && slack[j].email == email) <==>
      (slack[0].email == email && exists k :: 0 <= k < |slack[1..]| && slack[1..][k].email == email) ||
      (exists i, j :: 0 <= i < j < |slack[1..]| && slack[1..][i].email == email && slack[1..][j].email == email)
  {
  }

  // ---------------------------------------------------------------------
  // The specification of Execute
  // ---------------------------------------------------------------------

  /** The late developers of `harvest`, in list order. */
  function LateDevelopers(harvest: seq<HarvestDeveloper>, sheets: seq<TimeSheet>): seq<HarvestDeveloper>
  {
    if harvest == [] then []
    else
      var last := harvest[|harvest| - 1];
      LateDevelopers(harvest[..|harvest| - 1], sheets) + (if IsLate(last, sheets) then [last] else [])
  }

  /** The late developers are a sublist of `harvest` holding every developer
      under the threshold and nobody else. */
  lemma {:induction false} LateDevelopersMembers(harvest: seq<HarvestDeveloper>, sheets: seq<TimeSheet>)
    ensures |LateDevelopers(harvest, sheets)| <= |harvest|
    ensures forall d :: d in LateDevelopers(harvest, sheets) ==> d in harvest && IsLate(d, sheets)
    ensures forall k :: 0 <= k < |harvest| && IsLate(harvest[k], sheets) ==> harvest[k] in LateDevelopers(harvest, sheets)
    decreases |harvest|
  {
    if harvest != [] {
      var init := harvest[..|harvest| - 1];
      LateDevelopersMembers(init, sheets);
      assert forall k :: 0 <= k < |init| ==> init[k] == harvest[k];
    }
  }

  /** The Slack ids of the late developers of `harvest`, in list order, or
      the error of the first lookup that throws. Defined on prefixes, as the
      loop of Execute walks them. */
  function LateIds(harvest: seq<HarvestDeveloper>, slack: seq<SlackDeveloper>, sheets: seq<TimeSheet>)
    : (r: Result<seq<string>, LookupError>)
    ensures r.Ok? ==> |r.value| <= |harvest|
  {
    if harvest == [] then Ok([])
    else
      var prior := LateIds(harvest[..|harvest| - 1], slack, sheets);
      var last := harvest[|harvest| - 1];
      if prior.Err? || !IsLate(last, sheets) then prior
      else
        match Single(slack, last.email)
        case Err(e) => Err(e)
        case Ok(id) => Ok(prior.value + [id])
  }

  /** Once a lookup has thrown, later developers change nothing. */
  lemma {:induction false} LateIdsFailureSticks(a: seq<HarvestDeveloper>, b: seq<HarvestDeveloper>,
                                                slack: seq<SlackDeveloper>, sheets: seq<TimeSheet>)
    requires LateIds(a, slack, sheets).Err?
    ensures LateIds(a + b, slack, sheets) == LateIds(a, slack, sheets)
    decreases |b|
  {
    if b == [] {
      assert a + b == a;
    } else {
      var init := b[..|b| - 1];
      LateIdsFailureSticks(a, init, slack, sheets);
      assert (a + b)[..|a + b| - 1] == a + init;
    }
  }

  /** Every late developer of `harvest` has exactly one Slack match. */
  predicate AllLateResolvable(harvest: seq<HarvestDeveloper>, slack: seq<SlackDeveloper>, sheets: seq<TimeSheet>)
  {
    forall k :: 0 <= k < |harvest| && IsLate(harvest[k], sheets) ==> Single(slack, harvest[k].email).Ok?
  }

  /** Execute succeeds exactly when every late developer has exactly one
      Slack match; matches of developers who are not late never matter. */
  lemma {:induction false} LateIdsSucceedsIff(harvest: seq<HarvestDeveloper>, slack: seq<SlackDeveloper>,
                                              sheets: seq<TimeSheet>)
    ensures LateIds(harvest, slack, sheets).Ok? <==> AllLateResolvable(harvest, slack, sheets)
    decreases |harvest|
  {
    if harvest != [] {
      var init := harvest[..|harvest| - 1];
      var last := harvest[|harvest| - 1];
      LateIdsSucceedsIff(init, slack, sheets);
      assert AllLateResolvable(harvest, slack, sheets) <==>
        AllLateResolvable(init, slack, sheets) && (IsLate(last, sheets) ==> Single(slack, last.email).Ok?) by {
        assert forall k :: 0 <= k < |init| ==> init[k] == harvest[k];
      }
    }
  }

  /** On success the output holds one id per late developer, in list order,
      and each id is the one Slack match of that developer's email. */
  lemma {:induction false} LateIdsContents(harvest: seq<HarvestDeveloper>, slack: seq<SlackDeveloper>,
                                           sheets: seq<TimeSheet>)
    requires LateIds(harvest, slack, sheets).Ok?
    ensures |LateIds(harvest, slack, sheets).value| == |LateDevelopers(harvest, sheets)|
    ensures forall k :: 0 <= k < |LateDevelopers(harvest, sheets)| ==>
      Single(slack, LateDevelopers(harvest, sheets)[k].email) == Ok(LateIds(harvest, slack, sheets).value[k])
    decreases |harvest|
  {
    if harvest != [] {
      LateIdsContents(harvest[..|harvest| - 1], slack, sheets);
    }
  }

  /** Filtering the late developers keeps list order across any split. */
  lemma {:induction false} LateDevelopersAppend(a: seq<HarvestDeveloper>, b: seq<HarvestDeveloper>,
                                                sheets: seq<TimeSheet>)
    ensures LateDevelopers(a + b, sheets) == LateDevelopers(a, sheets) + LateDevelopers(b, sheets)
    decreases |b|
  {
    if b == [] {
      assert a + b == a;
    } else {
      var init, last := b[..|b| - 1], b[|b| - 1];
      var tail := if IsLate(last, sheets) then [last] else [];
      LateDevelopersAppend(a, init, sheets);
      assert (a + b)[..|a + b| - 1] == a + init && (a + b)[|a + b| - 1] == last;
      assert LateDevelopers(a + b, sheets) == LateDevelopers(a + init, sheets) + tail;
      assert LateDevelopers(b, sheets) == LateDevelopers(init, sheets) + tail;
    }
  }

  /** Two Slack directories that answer alike for every late developer give
      the same outcome. */
  lemma {:induction false} SlackConsultedOnlyForLate(harvest: seq<HarvestDeveloper>, slack1: seq<SlackDeveloper>,
                                                     slack2: seq<SlackDeveloper>, sheets: seq<TimeSheet>)
    requires forall k :: 0 <= k < |harvest| && IsLate(harvest[k], sheets) ==>
      Single(slack1, harvest[k].email) == Single(slack2, harvest[k].email)
    ensures LateIds(harvest, slack1, sheets) == LateIds(harvest, slack2, sheets)
    decreases |harvest|
  {
    if harvest != [] {
      var init := harvest[..|harvest| - 1];
      assert forall k :: 0 <= k < |init| ==> init[k] == harvest[k];
      SlackConsultedOnlyForLate(init, slack1, slack2, sheets);
    }
  }

  // ---------------------------------------------------------------------
  // The use case
  // ---------------------------------------------------------------------

  /** GetLateDevelopers.Execute over the three gateway responses. */
  method Execute(harvestDevelopers: seq<HarvestDeveloper>, slackDevelopers: seq<SlackDeveloper>,
                 timeSheets: seq<TimeSheet>)
    returns (response: Result<seq<string>, LookupError>)
    ensures response == LateIds(harvestDevelopers, slackDevelopers, timeSheets)
  {
    var developers: seq<string> := [];
    var i := 0;
    while i < |harvestDevelopers|
      invariant 0 <= i <= |harvestDevelopers|
      invariant LateIds(harvestDevelopers[..i], slackDevelopers, timeSheets) == Ok(developers)
    {
      var harvestDeveloper := harvestDevelopers[i];
      assert harvestDevelopers[..i + 1][..i] == harvestDevelopers[..i];
      var sumOfHours := HoursFor(timeSheets, harvestDeveloper.id);
      if sumOfHours < LateThreshold {
        var slackLateDeveloper := Single(slackDevelopers, harvestDeveloper.email);
        if slackLateDeveloper.Err? {
          LateIdsFailureSticks(harvestDevelopers[..i + 1], harvestDevelopers[i + 1..], slackDevelopers, timeSheets);
          assert harvestDevelopers[..i + 1] + harvestDevelopers[i + 1..] == harvestDevelopers;
          return Err(slackLateDeveloper.error);
        }
        developers := developers + [slackLateDeveloper.value];
      }
      i := i + 1;
    }
    assert harvestDevelopers[..i] == harvestDevelopers;
    return Ok(developers);
  }

  /** The 35-hour boundary: exactly 35 hours is not late, 34.99 is, and a
      late developer with no Slack match makes the run fail. */
  lemma ThresholdBoundary(developer: HarvestDeveloper, slackId: string)
    ensures LateIds([developer], [SlackDeveloper(slackId, developer.email)], [TimeSheet(developer.id, 35.0)]) == Ok([])
    ensures LateIds([developer], [SlackDeveloper(slackId, developer.email)], [TimeSheet(developer.id, 34.99)]) == Ok([slackId])
    ensures LateIds([developer], [], [TimeSheet(developer.id, 34.99)]) == Err(NoSlackMatch(developer.email))
  {
    var full, short := TimeSheet(developer.id, 35.0), TimeSheet(developer.id, 34.99);
    assert [developer][..0] == [];
    assert [full][1..] == [] && [short][1..] == [];
    assert SheetsFor([full], developer.id) == [full] + [];
    assert SheetsFor([short], developer.id) == [short] + [];
    assert [full] + [] == [full] && [short] + [] == [short];
    assert HoursFor([full], developer.id) == 35.0 + SumOfHours([]);
    assert HoursFor([short], developer.id) == 34.99 + SumOfHours([]);
    var slack := [SlackDeveloper(slackId, developer.email)];
    assert slack[1..] == [];
    assert Single(slack, developer.email) == Ok(slackId);
    assert [] + [slackId] == [slackId];
  }
}
