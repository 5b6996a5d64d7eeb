/** `list_calendar_events` (agent_manager.py:254-328, main_code.py:225-287): how many
    events to ask for, and the text that lists what the calendar returns. */
module CalendarList {
  import opened Base
  import opened Text
  import opened Json
  import opened Services

  /** When an event takes place, as the calendar gives it: start and end date-times,
      or the date of an all-day event. */
  datatype When = Timed(startDateTime: string, endDateTime: string) | AllDay(date: string)

  /** One item of the calendar's answer; `summary` and `location` are None when the
      event has no such key. */
  datatype CalEvent = CalEvent(when: When, summary: Option<Json>, location: Option<Json>)

  /** The answers of the calendar service and the Groq call for one listing: `setup`
      covers reading the credentials and building the service, `list` is
      `events().list(maxResults=n, ...).execute()` with the items it returns. */
  datatype ListEnv = ListEnv(setup: Result<()>, llm: LlmCall, list: int -> Result<seq<CalEvent>>)

  const DefaultCount: int := 10
  const Dashes: string := "------------------------------"
  const NoEvents: string := "\nNo upcoming events found."
  const MyTwo: string := "my 2 upcoming events"
  const ListMyTwo: string := "list my 2 upcoming events"

  function ListFailed(message: string): string {
    "\U{274C} Failed to list calendar events: " + message
  }

  /** `int(content.strip())`, or 10 when `int()` raises. */
  function ReplyCount(content: string): int {
    match ParseInt(Strip(content))
    case Some(n) => n
    case None => DefaultCount
  }

  /** The number of events to ask for. main_code.py forces 2 when the lower-cased
      query holds "my 2 upcoming events" or "list my 2 upcoming events". */
  function RequestedCount(variant: Variant, query: string, content: string): int {
    if variant == MainCodeFile && (Contains(Lower(query), MyTwo) || Contains(Lower(query), ListMyTwo)) then 2
    else ReplyCount(content)
  }

  /** The second phrase holds the first, so it never decides anything on its own. */
  lemma ListMyTwoSubsumed(query: string)
    ensures Contains(Lower(query), ListMyTwo) ==> Contains(Lower(query), MyTwo)
  {
    if Contains(Lower(query), ListMyTwo) {
      assert ListMyTwo[5..5 + |MyTwo|] == MyTwo;
      ContainsAt(ListMyTwo, MyTwo, 5);
      ContainsTransitive(Lower(query), ListMyTwo, MyTwo);
    }
  }

  /** The count is the integer the model replies with, or 10 when the reply is not
      one; in main_code.py "my 2 upcoming events" in the query overrides both. */
  lemma RequestedCountCases(variant: Variant, query: string, content: string)
    ensures variant == MainCodeFile && Contains(Lower(query), MyTwo) ==>
      RequestedCount(variant, query, content) == 2
    ensures (variant == AgentManagerFile || !Contains(Lower(query), MyTwo)) && ParseInt(content).Some? ==>
      RequestedCount(variant, query, content) == ParseInt(content).value
    ensures (variant == AgentManagerFile || !Contains(Lower(query), MyTwo)) && ParseInt(content).None? ==>
      RequestedCount(variant, query, content) == DefaultCount
  {
    ListMyTwoSubsumed(query);
    StripIdempotent(content);
  }

  /** A reply that is `str(n)` gives the count n. */
  lemma CountOfNumberReply(n: int)
    ensures ReplyCount(IntToString(n)) == n
  {
    ParseIntOfIntToString(n);
    assert ParseInt(Strip(IntToString(n))) == Some(n);
  }

  /** `datetime.fromisoformat(s.replace('Z', '+00:00'))`: the text handed to the
      library holds no 'Z'. */
  function UtcOffset(s: string): (r: string)
    ensures 'Z' !in r
    ensures 'Z' !in s ==> r == s
  {
    ReplaceChar(s, 'Z', "+00:00")
  }

  /** The line that says when the event is, or the text of what the library raised. */
  function WhenLine(clock: Clock, w: When): Result<string> {
    match w
    case Timed(s, e) =>
      var start :- clock.listStart(UtcOffset(s));
      var end :- clock.listEnd(UtcOffset(e));
      Ok("\nTime: " + start + " - " + end)
    case AllDay(d) =>
      var day :- clock.listDay(d);
      Ok("\nDate: " + day + " (All day)")
  }

  /** The title line of an event; "No Title" when it has no summary key. */
  function Title(e: CalEvent): string {
    "Event: " + (if e.summary.Some? then PyStr(e.summary.value) else "No Title")
  }

  /** The lines one event adds: when, title ("No Title" when the key is absent),
      the location when the key is present, and a rule. */
  function EventLines(clock: Clock, e: CalEvent): (r: Result<seq<string>>)
    ensures r.Ok? <==> WhenLine(clock, e.when).Ok?
    ensures r.Ok? ==> |r.value| == (if e.location.Some? then 4 else 3)
    ensures r.Ok? ==> r.value[0] == WhenLine(clock, e.when).value
    ensures r.Ok? ==> r.value[1] == Title(e)
    ensures r.Ok? && e.location.Some? ==> r.value[2] == "Location: " + PyStr(e.location.value)
    ensures r.Ok? ==> r.value[|r.value| - 1] == Dashes
  {
    var when :- WhenLine(clock, e.when);
    var title := Title(e);
    var located := if e.location.Some? then [when, title, "Location: " + PyStr(e.location.value)] else [when, title];
    Ok(located + [Dashes])
  }

  /** The lines of all events in order; the first event whose time cannot be
      converted stops the listing with the library's error. */
  function EventsLines(clock: Clock, events: seq<CalEvent>): Result<seq<string>>
    decreases |events|
  {
    if events == [] then Ok([])
    else
      var before :- EventsLines(clock, events[..|events| - 1]);
      var last :- EventLines(clock, events[|events| - 1]);
      Ok(before + last)
  }

  /** How many lines the events take: three each, four with a location. */
  function LineCount(events: seq<CalEvent>): nat
    decreases |events|
  {
    if events == [] then 0
    else LineCount(events[..|events| - 1]) + (if events[|events| - 1].location.Some? then 4 else 3)
  }

  /** The events' lines are as many as their count says, and at least three per event. */
  lemma {:induction false} EventsLinesLength(clock: Clock, events: seq<CalEvent>)
    requires EventsLines(clock, events).Ok?
    ensures |EventsLines(clock, events).value| == LineCount(events)
    ensures LineCount(events) >= 3 * |events|
    decreases |events|
  {
    if events != [] {
      EventsLinesLength(clock, events[..|events| - 1]);
    }
  }

  /** Every event the calendar returns is listed with its title. */
  lemma {:induction false} EveryEventTitled(clock: Clock, events: seq<CalEvent>, j: nat)
    requires EventsLines(clock, events).Ok? && j < |events|
    ensures Title(events[j]) in EventsLines(clock, events).value
    decreases |events|
  {
    var init := events[..|events| - 1];
    if j < |events| - 1 {
      assert events[j] == init[j];
      EveryEventTitled(clock, init, j);
    } else {
      assert EventLines(clock, events[j]).value[1] == Title(events[j]);
    }
  }

  /** A failure in the first `k` events is the failure of the whole listing: the
      loop stops at the first event it cannot convert. */
  lemma {:induction false} EventsLinesPrefixErr(clock: Clock, events: seq<CalEvent>, k: nat)
    requires k <= |events|
    requires EventsLines(clock, events[..k]).Err?
    ensures EventsLines(clock, events) == EventsLines(clock, events[..k])
    decreases |events| - k
  {
    if k < |events| {
      var next := events[..k + 1];
      assert next[..|next| - 1] == events[..k];
      EventsLinesPrefixErr(clock, events, k + 1);
    } else {
      assert events[..k] == events;
    }
  }

  /** The lines of an event whose time converts, written out. */
  lemma EventLinesOf(clock: Clock, e: CalEvent)
    requires WhenLine(clock, e.when).Ok?
    ensures EventLines(clock, e) == Ok([WhenLine(clock, e.when).value, Title(e)]
      + (if e.location.Some? then ["Location: " + PyStr(e.location.value)] else []) + [Dashes])
  {
    var w, t := WhenLine(clock, e.when).value, Title(e);
    if e.location.Some? {
      var l := "Location: " + PyStr(e.location.value);
      assert [w, t] + [l] + [Dashes] == [w, t, l] + [Dashes];
    } else {
      assert [w, t] + [] + [Dashes] == [w, t] + [Dashes];
    }
  }

  /** An event whose time does not convert ends the lines with its error. */
  lemma EventsLinesStop(clock: Clock, events: seq<CalEvent>, i: nat)
    requires i < |events| && EventsLines(clock, events[..i]).Ok? && WhenLine(clock, events[i].when).Err?
    ensures EventsLines(clock, events) == Err(WhenLine(clock, events[i].when).error)
  {
    var prefix := events[..i + 1];
    assert prefix[..|prefix| - 1] == events[..i];
    EventsLinesPrefixErr(clock, events, i + 1);
  }

  /** One more event adds its lines to those of the events before it. */
  lemma EventsLinesSnoc(clock: Clock, events: seq<CalEvent>, i: nat)
    requires i < |events| && EventsLines(clock, events[..i]).Ok? && EventLines(clock, events[i]).Ok?
    ensures EventsLines(clock, events[..i + 1])
      == Ok(EventsLines(clock, events[..i]).value + EventLines(clock, events[i]).value)
  {
    var prefix := events[..i + 1];
    assert prefix[..|prefix| - 1] == events[..i];
  }

  /** The listing's lines: a heading with the count, a rule, the events' lines, and
      the "no events" line when there were none. */
  function Listing(count: int, events: seq<CalEvent>, lines: seq<string>): seq<string> {
    ["\nUpcoming " + IntToString(count) + " Events:", Dashes] + lines + (if events == [] then [NoEvents] else [])
  }

  /** The reply of `list_calendar_events(query)`. */
  function ListReply(variant: Variant, clock: Clock, env: ListEnv, query: string): string {
    match env.setup
    case Err(m) => ListFailed(m)
    case Ok(_) =>
      match env.llm
      case NoClient => GroqMissing
      case Raised(m) => ListFailed(m)
      case Replied(content) =>
        var count := RequestedCount(variant, query, content);
        CountReply(clock, count, env.list(count))
  }

  /** The reply once `count` events were asked for and the calendar answered. */
  function CountReply(clock: Clock, count: int, listed: Result<seq<CalEvent>>): string {
    match listed
    case Err(m) => ListFailed(m)
    case Ok(events) =>
      match EventsLines(clock, events)
      case Err(m) => ListFailed(m)
      case Ok(lines) => Join(Listing(count, events, lines), "\n")
  }

  /** Every reply of `list_calendar_events` holds visible text: the failures
      start with a cross mark and a listing holds its rule of dashes. */
  lemma ListReplyVisible(variant: Variant, clock: Clock, env: ListEnv, query: string)
    ensures HasVisible(ListReply(variant, clock, env, query))
  {
    match env.setup
    case Err(m) => VisibleFirst(ListFailed(m));
    case Ok(_) =>
      match env.llm
      case NoClient => VisibleLast(GroqMissing);
      case Raised(m) => VisibleFirst(ListFailed(m));
      case Replied(content) =>
        var count := RequestedCount(variant, query, content);
        match env.list(count)
        case Err(m) => VisibleFirst(ListFailed(m));
        case Ok(events) =>
          match EventsLines(clock, events)
          case Err(m) => VisibleFirst(ListFailed(m));
          case Ok(lines) =>
            VisibleFirst(Dashes);
            JoinVisible(Listing(count, events, lines), "\n", 1);
  }

  lemma EmptyCount(clock: Clock, count: int)
    ensures CountReply(clock, count, Ok([])) ==
      "\nUpcoming " + IntToString(count) + " Events:\n" + Dashes + "\n" + NoEvents
  {
    var heading := "\nUpcoming " + IntToString(count) + " Events:";
    assert EventsLines(clock, []) == Ok([]);
    assert Listing(count, [], []) == [heading, Dashes, NoEvents];
    JoinThree(heading, Dashes, NoEvents, "\n");
  }

  /** The heading of a listing of `count` events, with its rule. */
  function HeadingOf(count: int): string {
    "\nUpcoming " + IntToString(count) + " Events:\n" + Dashes
  }

  /** Once the calendar answers, the reply names the count that was asked for, not the
      number of events it returned: every listing starts with that heading and its
      rule, and only a failed time conversion replaces it with the error. */
  lemma CountReplyHeading(clock: Clock, count: int, events: seq<CalEvent>)
    ensures EventsLines(clock, events).Ok? ==> StartsAt(CountReply(clock, count, Ok(events)), 0, HeadingOf(count))
    ensures EventsLines(clock, events).Err? ==> CountReply(clock, count, Ok(events)) == ListFailed(EventsLines(clock, events).error)
  {
    if EventsLines(clock, events).Ok? {
      var lines := EventsLines(clock, events).value;
      var heading := "\nUpcoming " + IntToString(count) + " Events:";
      var rest := lines + (if events == [] then [NoEvents] else []);
      assert Listing(count, events, lines) == [heading, Dashes] + rest;
      JoinStartsWith(heading, Dashes, rest, "\n");
      assert heading + "\n" + Dashes == HeadingOf(count);
    }
  }

  /** The listing reply, whatever the calendar returned, starts with the heading for
      the requested count. */
  lemma ListHeading(variant: Variant, clock: Clock, env: ListEnv, query: string)
    requires env.setup.Ok? && env.llm.Replied?
    requires env.list(RequestedCount(variant, query, env.llm.content)).Ok?
    ensures var count := RequestedCount(variant, query, env.llm.content);
      var events := env.list(count).value;
      && (EventsLines(clock, events).Ok? ==> StartsAt(ListReply(variant, clock, env, query), 0, HeadingOf(count)))
      && (EventsLines(clock, events).Err? ==> ListReply(variant, clock, env, query) == ListFailed(EventsLines(clock, events).error))
  {
    var count := RequestedCount(variant, query, env.llm.content);
    CountReplyHeading(clock, count, env.list(count).value);
  }

  /** An empty calendar gives the heading, the rule and the "no events" line. */
  lemma EmptyCalendar(variant: Variant, clock: Clock, env: ListEnv, query: string)
    requires env.setup.Ok? && env.llm.Replied?
    requires env.list(RequestedCount(variant, query, env.llm.content)) == Ok([])
    ensures ListReply(variant, clock, env, query) ==
      "\nUpcoming " + IntToString(RequestedCount(variant, query, env.llm.content)) + " Events:\n"
      + Dashes + "\n" + NoEvents
  {
    var count := RequestedCount(variant, query, env.llm.content);
    assert ListReply(variant, clock, env, query) == CountReply(clock, count, Ok([]));
    EmptyCount(clock, count);
  }

  /** One pass of the loop below: the event's lines appended to `lines`, or the error
      of converting its time. */
  method AppendEvent(clock: Clock, lines: seq<string>, e: CalEvent) returns (next: Result<seq<string>>)
    ensures next.Ok? <==> EventLines(clock, e).Ok?
    ensures next.Ok? ==> next.value == lines + EventLines(clock, e).value
    ensures next.Err? ==> next.error == WhenLine(clock, e.when).error
  {
    var when := WhenLine(clock, e.when);
    if when.Err? {
      return Err(when.error);
    }
    var output := lines + [when.value];
    var summary := e.summary;
    output := output + ["Event: " + (if summary.Some? then PyStr(summary.value) else "No Title")];
    ghost var added := [when.value, Title(e)];
    assert output == lines + added;
    var location := e.location;
    if location.Some? {
      output := output + ["Location: " + PyStr(location.value)];
      added := added + ["Location: " + PyStr(location.value)];
    }
    output := output + [Dashes];
    added := added + [Dashes];
    assert output == lines + added;
    EventLinesOf(clock, e);
    next := Ok(output);
  }

  /** agent_manager.py:302-316: the output list, which starts as `heading`, grows
      event by event; the first event the library cannot convert ends the loop. */
  method AppendEvents(clock: Clock, heading: seq<string>, events: seq<CalEvent>) returns (output: Result<seq<string>>)
    ensures output.Ok? <==> EventsLines(clock, events).Ok?
    ensures output.Ok? ==> output.value == heading + EventsLines(clock, events).value
    ensures output.Err? ==> output.error == EventsLines(clock, events).error
  {
    var lines := heading;
    var i := 0;
    while i < |events|
      invariant 0 <= i <= |events|
      invariant EventsLines(clock, events[..i]).Ok?
      invariant lines == heading + EventsLines(clock, events[..i]).value
    {
      var next := AppendEvent(clock, lines, events[i]);
      if next.Err? {
        EventsLinesStop(clock, events, i);
        return Err(next.error);
      }
      EventsLinesSnoc(clock, events, i);
      ghost var done := EventsLines(clock, events[..i]).value;
      assert next.value == heading + (done + EventLines(clock, events[i]).value);
      lines := next.value;
      i := i + 1;
    }
    assert events[..i] == events;
    output := Ok(lines);
  }

  /** `list_calendar_events(query)`, step by step as the source runs it. */
  method ListCalendarEvents(variant: Variant, clock: Clock, env: ListEnv, query: string) returns (reply: string)
    ensures reply == ListReply(variant, clock, env, query)
  {
    if env.setup.Err? {
      return ListFailed(env.setup.error);
    }
    if env.llm.NoClient? {
      return GroqMissing;
    }
    if env.llm.Raised? {
      return ListFailed(env.llm.message);
    }
    var count := ReplyCount(env.llm.content);
    if variant == MainCodeFile && (Contains(Lower(query), MyTwo) || Contains(Lower(query), ListMyTwo)) {
      count := 2;
    }
    assert count == RequestedCount(variant, query, env.llm.content);
    reply := ShowEvents(clock, count, env.list(count));
  }

  /** agent_manager.py:289-322: the listing text for the calendar's answer. */
  method ShowEvents(clock: Clock, count: int, listed: Result<seq<CalEvent>>) returns (reply: string)
    ensures reply == CountReply(clock, count, listed)
  {
    if listed.Err? {
      return ListFailed(listed.error);
    }
    var events := listed.value;
    var output := AppendEvents(clock, ["\nUpcoming " + IntToString(count) + " Events:", Dashes], events);
    if output.Err? {
      return ListFailed(output.error);
    }
    var lines := output.value;
    if events == [] {
      lines := lines + [NoEvents];
    }
    assert lines == Listing(count, events, EventsLines(clock, events).value);
    reply := Join(lines, "\n");
  }
}
