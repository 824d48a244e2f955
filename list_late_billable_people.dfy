/** Aggregated late list: one message to a fixed channel, either the
    "no late people" text or a header followed by one Slack mention per
    late billable person, in roster order. */
module ListLateBillablePeople {
  import opened Boundary

  datatype ListLateBillablePeopleRequest = ListLateBillablePeopleRequest(
    channel: string,
    lateBillablePeopleMessage: string,
    noLateBillablePeopleMessage: string)

  /** The line that mentions one person: a newline, a bullet and a Slack
      user mention. */
  function Mention(id: string): string
  {
    "\n• <@" + id + ">"
  }

  /** The `Aggregate` call of ListLateBillablePeople.cs: start from `seed`
      and append each person's mention in turn. */
  function Aggregate(seed: string, people: seq<BillablePerson>): string
    decreases |people|
  {
    if people == [] then seed
    else Aggregate(seed + Mention(people[0].id), people[1..])
  }

  /** Independent reference: the mentions of `people`, concatenated in
      order. */
  function Mentions(people: seq<BillablePerson>): string
  {
    if people == [] then "" else Mention(people[0].id) + Mentions(people[1..])
  }

  /** The fold yields the seed followed by every mention, in order. */
  lemma {:induction false} AggregateIsSeedAndMentions(seed: string, people: seq<BillablePerson>)
    ensures Aggregate(seed, people) == seed + Mentions(people)
    decreases |people|
  {
    if people == [] {
      assert seed + "" == seed;
    } else {
      AggregateIsSeedAndMentions(seed + Mention(people[0].id), people[1..]);
      assert seed + Mention(people[0].id) + Mentions(people[1..]) == seed + (Mention(people[0].id) + Mentions(people[1..]));
    }
  }

  lemma {:induction false} MentionsAppend(a: seq<BillablePerson>, b: seq<BillablePerson>)
    ensures Mentions(a + b) == Mentions(a) + Mentions(b)
  {
    if a == [] {
      assert a + b == b;
    } else {
      assert (a + b)[0] == a[0] && (a + b)[1..] == a[1..] + b;
      MentionsAppend(a[1..], b);
    }
  }

  /** The fold step: one more person extends the text by exactly that
      person's mention. */
  lemma AggregateStep(seed: string, people: seq<BillablePerson>, person: BillablePerson)
    ensures Aggregate(seed, people + [person]) == Aggregate(seed, people) + Mention(person.id)
  {
    AggregateIsSeedAndMentions(seed, people + [person]);
    AggregateIsSeedAndMentions(seed, people);
    MentionsAppend(people, [person]);
    assert [person][1..] == [];
    assert Mentions([person]) == Mention(person.id) + "";
  }

  /** Person k's mention sits between the mentions of everyone before and
      everyone after them. */
  lemma MentionsSplit(people: seq<BillablePerson>, k: int)
    requires 0 <= k < |people|
    ensures Mentions(people) == Mentions(people[..k]) + Mention(people[k].id) + Mentions(people[k + 1..])
  {
    var rest := people[k..];
    assert people == people[..k] + rest;
    MentionsAppend(people[..k], rest);
    assert rest != [] && rest[0] == people[k] && rest[1..] == people[k + 1..];
    assert Mentions(rest) == Mention(people[k].id) + Mentions(people[k + 1..]);
  }

  /** The text the use case sends. */
  function Text(request: ListLateBillablePeopleRequest, people: seq<BillablePerson>): (text: string)
    ensures people == [] ==> text == request.noLateBillablePeopleMessage
    ensures people != [] ==> text == request.lateBillablePeopleMessage + Mentions(people)
  {
    AggregateIsSeedAndMentions(request.lateBillablePeopleMessage, people);
    if people == [] then request.noLateBillablePeopleMessage
    else Aggregate(request.lateBillablePeopleMessage, people)
  }

  /** For a non-empty roster the header starts the text and each person's
      mention follows it, at the place fixed by the people before them. */
  lemma HeaderThenMentions(request: ListLateBillablePeopleRequest, people: seq<BillablePerson>, k: int)
    requires 0 <= k < |people|
    ensures var header := request.lateBillablePeopleMessage;
      var text := Text(request, people);
      var at := |header| + |Mentions(people[..k])|;
      header <= text && at + |Mention(people[k].id)| <= |text| &&
      text[at..at + |Mention(people[k].id)|] == Mention(people[k].id)
  {
    MentionsSplit(people, k);
    var header := request.lateBillablePeopleMessage;
    var before, mention, after := Mentions(people[..k]), Mention(people[k].id), Mentions(people[k + 1..]);
    assert Text(request, people) == (header + before) + mention + after;
  }

  /** A roster of three gives the header, then their three mention lines in
      roster order. */
  lemma MentionsOfThree(request: ListLateBillablePeopleRequest, a: string, b: string, c: string)
    ensures Text(request, [BillablePerson(a), BillablePerson(b), BillablePerson(c)])
      == request.lateBillablePeopleMessage + Mention(a) + Mention(b) + Mention(c)
  {
    var people := [BillablePerson(a), BillablePerson(b), BillablePerson(c)];
    assert people[1..] == [BillablePerson(b), BillablePerson(c)];
    assert people[1..][1..] == [BillablePerson(c)];
    assert people[1..][1..][1..] == [];
    assert Mentions([BillablePerson(c)]) == Mention(c) + "" == Mention(c);
    assert Mentions(people) == Mention(a) + (Mention(b) + Mention(c));
  }

  /** Three late people W123AROB, W345ABAT, W345ALFR under the header
      "These are the people yet to submit time sheets:" give exactly this
      text. */
  lemma ThreeLatePeople(request: ListLateBillablePeopleRequest, people: seq<BillablePerson>)
    requires request.lateBillablePeopleMessage == "These are the people yet to submit time sheets:"
    requires people == [BillablePerson("W123AROB"), BillablePerson("W345ABAT"), BillablePerson("W345ALFR")]
    ensures Text(request, people)
      == "These are the people yet to submit time sheets:\n• <@W123AROB>\n• <@W345ABAT>\n• <@W345ALFR>"
  {
    MentionsOfThree(request, "W123AROB", "W345ABAT", "W345ALFR");
    ThreeMentionLines();
  }

  lemma ThreeMentionLines()
    ensures Mention("W123AROB") + Mention("W345ABAT") + Mention("W345ALFR") == "\n• <@W123AROB>\n• <@W345ABAT>\n• <@W345ALFR>"
  {
  }

  // ---------------------------------------------------------------------
  // The collaborator and the use case
  // ---------------------------------------------------------------------

  /** The get-late-billable-people boundary: answers with a fixed roster
      and counts how often it was asked. */
  class LateBillablePeopleSource {
    const billablePeople: seq<BillablePerson>
    var queries: nat

    constructor (billablePeople: seq<BillablePerson>)
      ensures this.billablePeople == billablePeople && queries == 0
    {
      this.billablePeople := billablePeople;
      queries := 0;
    }

    method Execute() returns (people: seq<BillablePerson>)
      modifies this
      ensures people == billablePeople
      ensures queries == old(queries) + 1
    {
      people := billablePeople;
      queries := queries + 1;
    }
  }

  class ListLateBillablePeople {
    const getLateBillablePeople: LateBillablePeopleSource
    const sendReminder: ReminderSink

    constructor (getLateBillablePeople: LateBillablePeopleSource, sendReminder: ReminderSink)
      ensures this.getLateBillablePeople == getLateBillablePeople && this.sendReminder == sendReminder
    {
      this.getLateBillablePeople := getLateBillablePeople;
      this.sendReminder := sendReminder;
    }

    /** Asks for the roster once and sends exactly one message, addressed to
        the request's channel. */
    method Execute(request: ListLateBillablePeopleRequest)
      modifies getLateBillablePeople, sendReminder
      ensures getLateBillablePeople.queries == old(getLateBillablePeople.queries) + 1
      ensures sendReminder.sent ==
        old(sendReminder.sent) + [Message(request.channel, Text(request, getLateBillablePeople.billablePeople))]
    {
      var lateBillablePeople := getLateBillablePeople.Execute();
      var text: string;
      if lateBillablePeople == [] {
        text := request.noLateBillablePeopleMessage;
      } else {
        text := Aggregate(request.lateBillablePeopleMessage, lateBillablePeople);
      }
      sendReminder.Execute(Message(request.channel, text));
    }
  }
}
