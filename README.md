# AI personal assistant: routing and agent pipeline, in Dafny

The repository is a personal assistant that takes one free-text request and answers it. It decides which agents to run (create a calendar event, list calendar events, send an e-mail), runs them, and joins their replies into one text. The logic exists in two versions: `agent_manager.py`, the one the web app imports, and `main_code.py`. A `Variant` value (`AgentManagerFile`, `MainCodeFile`) selects the branches where they differ. Logic they share is defined once.

This project models the decision logic that sits between the external calls. Each external call is an input:

- The Groq model's answer is an `LlmCall`: no client, an exception, or a reply text.
- Google Calendar and Gmail answer with `Result` values.
- `json.loads` is an abstract `Loads` function.
- `strptime`, `strftime` and `fromisoformat` are fields of a `Clock`.
- Times are absolute minutes.

The modules follow the program's structure:

- `Text` (`text.dfy`): the Python string operations the code relies on. These are `str.isspace`, ASCII `lower`, `strip`, `split`, `join`, `replace`, `int()` and `in`.
- `Json` (`json.dfy`): parsed values and Python truthiness, `==`, `str()` and iteration. It also holds `dict.get` and `safe_json_parse`, including the regex salvage of an `"agents": [...]` array.
- `Address` (`address.dfy`): the e-mail address pattern as a leftmost matcher, proved sound and complete. It also holds the `to <name>` clause.
- `CalendarCreate` (`event.dfy`): `create_calendar_event`. This covers end-time correction, the `from X to Y pm` override (its pattern as a leftmost matcher, proved sound and complete against a description of what a match is), the event body and the confirmation text.
- `CalendarList` (`listing.dfy`): `list_calendar_events`. This covers the requested count (including the "my 2 upcoming events" rule of `main_code.py`) and the listing loop.
- `Email` (`email.dfy`): `send_email` and `generate_template_email`. This covers recipient, subject loops, content clean-up, body choice and the `SUBJECT:` split.
- `Router` (`router.dfy`): both `route_query` rule orders and the model-based routing.
- `Workflow` (`workflow.dfy`): the `AgentState` class with `route_query` and `execute_tools` as methods that update it. It also holds `agent_manager`, `agent_manager_with_fallback` and `direct_test`.

The loops of the source are methods with loop invariants. Each is proved equal to a specification function, and the properties are proved about those functions:

- the `responses` loop of `execute_tools`;
- the `output` loop of the listing;
- the subject-pattern loops;
- the step-by-step end-time and event-body assembly.

Where the written specification of the system and the code disagree, the model follows the code:

- **End time.** The "from X to Y pm" override runs after the end-time correction and rewrites only the end. So the end can come before the start (`CalendarCreate.OverrideCanPrecedeStart`), and the start is never rewritten.
- **No heuristic parser.** There is no heuristic event parser. Without a client the reply is the Groq error, and unparsable JSON gives "Failed to parse event details".
- **Unknown actions.** Routed actions are not filtered. An unknown action yields `Unknown action: <a>`. A nonzero number in `"agents"` makes `execute_tools` raise, and `agent_manager` returns "Error processing your request: 'int' object is not iterable" (`Workflow.NumberOfAgentsRaises`).
- **Groq client missing.** In `agent_manager.py` a missing Groq client during routing leaves no actions. The reply is then the "No specific actions…" message (`Workflow.NoClientNoActions`).
- **Mail template.** The mail template is one fixed template, not one per topic.

## Model

| member | source | states |
|---|---|---|
| Text.Lower | agent_manager.py:532 | the ASCII part of `str.lower`: each ASCII capital is lowered and every other character is kept in place, so the length is kept |
| Text.StripEmptyIff | agent_manager.py:696 | `s.strip() == ""` holds exactly when every character of `s` is whitespace |
| Text.StripIdempotent | agent_manager.py:279 | stripping twice gives what stripping once gives |
| Text.JoinSplit | main_code.py:332-333 | joining the parts of `s.split(c)` with `c` gives `s` back |
| Text.SplitJoin | main_code.py:332-333 | splitting a join of separator-free parts gives the parts back |
| Text.ParseIntOfIntToString | agent_manager.py:283 | `int(str(n)) == n` for every integer |
| Text.ReplaceChar | agent_manager.py:307 | `replace('Z', '+00:00')` leaves no `Z`, changes nothing without one, and keeps every other character |
| Text.ReplaceCharConcat | agent_manager.py:307 | `replace` works piece by piece: replacing in `a + b` is replacing in `a` followed by replacing in `b` |
| Text.ReplaceCharOccurrence | agent_manager.py:307 | a `Z` after a `Z`-free prefix becomes `+00:00` in its place, with the prefix unchanged before it |
| Text.JoinVisible | agent_manager.py:623 | a join holds visible text when one of its parts does |
| Json.Get | agent_manager.py:571 | `.get` succeeds exactly on a dict: the member when present, the default otherwise; it raises AttributeError on other values |
| Json.Iterate | agent_manager.py:594 | `for x in v` fails exactly for None, bool and int; a truthy iterable yields at least one item; a list yields its items, a str its characters as one-character strings, a dict its keys in order |
| Json.Dict | agent_manager.py:123 | a parsed object keeps one entry per key, each taken from the source members |
| Json.DictKeyIndex | agent_manager.py:123 | a key is in the parsed dict exactly when some member of the object text has it |
| Json.DictLast | agent_manager.py:123 | for a repeated key the parsed dict keeps the value of its last member |
| Json.DictOrder | agent_manager.py:123 | keys keep the order of their first appearance in the object text |
| Json.AgentsArrayShape | agent_manager.py:62-69 | the salvaged text is a bracketed array without an inner `]`, found after `"agents":` |
| Json.AgentsArrayIff | agent_manager.py:66-67 | the salvage finds an array exactly when the text holds `"agents":`, optional whitespace, `[`, at least one character other than `]`, and `]` |
| Json.AgentsArrayLeftmost | agent_manager.py:66-68 | the salvaged text is the bracketed group of the leftmost such match |
| Json.SafeJsonParseOutcomes | agent_manager.py:55-72 | `safe_json_parse`: parses the text; otherwise salvages the `"agents"` array as `{"agents": ...}`; otherwise gives the default (or `{"agents": ["calendar_list"]}`) |
| Address.FirstAddressIff | agent_manager.py:524-525 | the leftmost-match search finds an address exactly when the text holds a substring matching the pattern |
| Address.FirstAddressLeftmost | agent_manager.py:371-383 | the recipient is a matching substring of the query, no match starts before it, and no longer match starts where it does: the greedy match `re.search` returns |
| Address.AddressAtLongest | agent_manager.py:371 | no address starting where `AddressAt` found one ends after it: the last dot followed by two letters in the domain run is the one taken |
| Address.ToClauseName | agent_manager.py:377-380 | the name after `to` consists of name characters and occurs in the query |
| Address.ToClauseIff | agent_manager.py:377-378 | a `to` clause is found exactly when some position holds `to`, `send to` or `email to` (case-insensitive), whitespace and a name character |
| Address.ToClauseAtSpec | agent_manager.py:377 | at a position where the pattern matches, the group is the greedy one: the whitespace run is taken in full, then the longest run of name characters |
| Address.ToClauseLeftmost | agent_manager.py:377-379 | the recipient name is the group of the leftmost match, stripped, and no match starts before it |
| CalendarCreate.Field | agent_manager.py:130 | `event_details[key]` succeeds exactly on a dict holding the key, with its value |
| CalendarCreate.CorrectedEnd | agent_manager.py:134-151 | after the correction the end is strictly after the start |
| CalendarCreate.CorrectedEndCases | main_code.py:123-134 | a missing, equal, unparsable or not-later end becomes start + 60 minutes; otherwise the parsed end is kept |
| CalendarCreate.RangeAtSound | agent_manager.py:158-159 | a match found at a position is a match of `from\s+(\d+(?::\d+)?)\s*(?:am\|pm)\s+to\s+(\d+(?::\d+)?)\s*(?:am\|pm)` starting there, and the two groups returned are that match's groups |
| CalendarCreate.RangeAtComplete | agent_manager.py:158-159 | wherever the pattern matches, the matcher finds a match at that position with the same two groups: the pattern has one way to match at a position |
| CalendarCreate.RangeMatchIff | agent_manager.py:159 | `re.search` finds the groups exactly when the pattern matches somewhere in the lowered query |
| CalendarCreate.RangeMatchLeftmost | main_code.py:140-141 | the groups found are those of a match with no match starting before it, and every match starting where it does has the same groups |
| CalendarCreate.OverrideHourSpec | agent_manager.py:156-171 | the override hour exists only for a lowered query with "from", "to", "pm" and a whole-hour range; it is the second hour, plus 12 below 12 |
| CalendarCreate.RangeOverrideSpec | main_code.py:137-157 | the override keeps the start's date and sets the end to that hour, minute 0, between 12:00 and 23:00 |
| CalendarCreate.EndTime | agent_manager.py:134-176 | without an override the end is after the start; when the override fires it is the end the event receives |
| CalendarCreate.EndTimeSpec | agent_manager.py:134-176 | the event's end: with the override, the start's day at the phrase's hour between 12:00 and 23:00, minute 0; otherwise the corrected end, after the start |
| CalendarCreate.EndTimeCanPrecedeStart | agent_manager.py:154-176 | "from 10 pm to 1 am" with a 22:00 start gives the event an end of 13:00, before its start, whatever the model gave |
| CalendarCreate.FourToSix | agent_manager.py:154-176 | "from 4 pm to 6 pm" sets the end to 18:00 on the start's date |
| CalendarCreate.OverrideCanPrecedeStart | agent_manager.py:154-176 | "from 10 pm to 1 am" with a 22:00 start sets the end to 13:00, before the start |
| CalendarCreate.MinutesDisableOverride | agent_manager.py:159-165 | "from 4:30 pm to 6 pm" does not override: `int("4:30")` raises and is ignored |
| CalendarCreate.Attendees | agent_manager.py:207-212 | the attendee list is non-empty exactly when the `attendees` value is present and truthy; a list is taken as its items, any other truthy value as a one-element list |
| CalendarCreate.AttendeeTexts | agent_manager.py:215-216 | attendee texts skip None and are empty exactly when all attendees are None; without None there is one text `str(a)` per attendee, in order |
| CalendarCreate.AttendeeTextsConcat | agent_manager.py:216 | the texts of two runs of attendees are those of the first run followed by those of the second, so the list's order is kept |
| CalendarCreate.AttendeeTextOne | agent_manager.py:216 | a single attendee gives `[str(a)]`, or nothing when it is None |
| CalendarCreate.Location | agent_manager.py:198-200 | the location is included exactly when present and truthy, with its value |
| CalendarCreate.BodySpec | agent_manager.py:183-220 | the event body holds summary, start, end and time zone; its location and description follow the source's inclusion rules; with attendees a text description gains the attendee line; without attendees a truthy description is kept as given and a falsy one gives no description |
| CalendarCreate.ConfirmationLines | agent_manager.py:226-244 | the confirmation has 5 lines plus optional location and attendee lines, starts with the header and ends with the link |
| CalendarCreate.Schedule | agent_manager.py:129-246 | a successful scheduling reply holds visible text |
| CalendarCreate.CreateReplyVisible | agent_manager.py:74-252 | every reply of `create_calendar_event` holds visible text |
| CalendarCreate.ResolveEnd | agent_manager.py:134-176 | the step-by-step reassignment of the end gives `EndTime` |
| CalendarCreate.AssembleBody | agent_manager.py:183-220 | the in-place construction of the event dict gives `Body` |
| CalendarCreate.Confirm | agent_manager.py:226-244 | appending the response parts gives the joined `ConfirmationLines` |
| CalendarCreate.CreateCalendarEvent | main_code.py:71-223 | `create_calendar_event` returns `CreateReply` |
| CalendarList.RequestedCountCases | main_code.py:246-253 | the count is 2 in main_code.py for "my 2 upcoming events", else `int(reply)`, else 10 |
| CalendarList.ListMyTwoSubsumed | main_code.py:252 | the second phrase of the "2 events" test adds nothing: it contains the first |
| CalendarList.CountOfNumberReply | agent_manager.py:279-287 | a reply that is a number gives that count |
| CalendarList.UtcOffset | agent_manager.py:307-308 | the time text given to `fromisoformat` holds no `Z` |
| CalendarList.EventLines | agent_manager.py:305-316 | each event adds its time or date line, its title, its location when present, and a rule |
| CalendarList.EventsLinesLength | agent_manager.py:304-316 | the lines number three per event plus one per located event |
| CalendarList.EveryEventTitled | agent_manager.py:313 | every listed event's title appears in the output |
| CalendarList.EventsLinesPrefixErr | agent_manager.py:304-316 | the first event that cannot be converted decides the error |
| CalendarList.CountReplyHeading | agent_manager.py:302 | once the calendar answers, the reply starts with "Upcoming N Events:" and the rule for the requested N, however many events came back, unless a time conversion fails |
| CalendarList.ListHeading | agent_manager.py:282-319 | the listing reply starts with the heading for the requested count whatever the calendar returned, or is the conversion error |
| CalendarList.EmptyCalendar | main_code.py:266-285 | no events gives the heading with the requested count, the rule and "No upcoming events found." |
| CalendarList.ListReplyVisible | agent_manager.py:254-328 | every reply of `list_calendar_events` holds visible text |
| CalendarList.AppendEvent | agent_manager.py:306-316 | one event appends exactly its `EventLines` (time or all-day date, title or "No Title", location when present, rule), or stops with the time conversion's error |
| CalendarList.AppendEvents | agent_manager.py:302-316 | the output loop gives the heading followed by `EventsLines`, or its error |
| CalendarList.ShowEvents | agent_manager.py:289-322 | the listing text for the calendar's answer is `CountReply` |
| CalendarList.ListCalendarEvents | main_code.py:225-287 | `list_calendar_events` returns `ListReply` |
| Email.FirstMatch | agent_manager.py:396-418 | no pattern matches exactly when every pattern fails |
| Email.FirstMatchIndex | agent_manager.py:396-403 | a match comes from the first pattern that matches |
| Email.DropTrailingQuote | agent_manager.py:400-401 | a trailing `"` is dropped and nothing else changes |
| Email.SubjectCases | agent_manager.py:385-419 | the subject is "No Subject" when no pattern matches; otherwise it is the stripped match of an explicit pattern, or of a content phrase |
| Email.SubjectFromPattern | agent_manager.py:396-403 | the first explicit pattern that matches gives the subject (stripped, trailing quote dropped) whenever that is not "No Subject"; later patterns and the content phrases play no part |
| Email.SubjectFromPhrase | agent_manager.py:405-418 | when no explicit pattern matches, the first content phrase that matches gives the subject, stripped |
| Email.TemplateLines | agent_manager.py:339-350 | the template has 8 lines, names the topic on line 3 and ends with the signature |
| Email.TemplateShape | agent_manager.py:331-351 | the template ends with "Best regards,\nMilind Warade"; for a one-line topic it splits into `TemplateLines` |
| Email.EmailBody | agent_manager.py:439-482 | the body is the stripped model reply exactly when that has at least 30 characters; no client, an exception or a short reply give the template |
| Email.SubjectBodyRoundTrip | main_code.py:317-333 | a reply "SUBJECT:" + subject + newline + body gives back the stripped subject and body |
| Email.OneLineReply | main_code.py:332-333 | a one-line reply is all subject and gives an empty body |
| Email.AddressedQuery | agent_manager.py:371-384 | a query holding an address never gets a missing-address reply, and the mail goes to its leftmost address |
| Email.UnaddressedQuery | agent_manager.py:374-381 | without an address the reply is the missing-address text, naming the `to` clause in agent_manager.py when there is one |
| Email.EmailReplyVisible | agent_manager.py:353-516 | every reply of `send_email` holds visible text |
| Email.ChooseSubject | agent_manager.py:385-419 | the two loops with `break` give `SubjectOf` |
| Email.CleanContent | agent_manager.py:420-434 | the sequence of rewrites gives `ContentInfo`, which comes out stripped |
| Email.ContentInfoStripped | agent_manager.py:434 | `content_info` is stripped: stripping it again changes nothing |
| Email.ContentInfoSubject | agent_manager.py:425-428 | with "No Subject" the subject pattern plays no part; with a subject, a removal that changes nothing gives the text without a subject |
| Email.ChooseBody | agent_manager.py:439-482 | the body chosen is `EmailBody` of the template |
| Email.SendEmail | main_code.py:290-355 | `send_email` returns `EmailReply` |
| Router.AddressRoutesToEmail | agent_manager.py:524-528 | in agent_manager.py a query with an address goes to the mail agent whatever the model says |
| Router.AddressFirstAsksModel | agent_manager.py:519-576 | the model is asked exactly when there is neither an address nor an e-mail keyword |
| Router.KeywordFirstOrder | main_code.py:362-372 | in main_code.py the creation, listing and e-mail phrases are tried in that order, and a match makes the model irrelevant |
| Router.LlmRouteCases | agent_manager.py:550-583 | the model's routing gives the parsed `agents`, `["calendar_list"]` when absent, the AttributeError text on a non-dict, and `["calendar_list"]` with an error on an exception |
| Router.RouteOrdersDiffer | main_code.py:358-372 | "send email to list@x.com" goes to the mail agent in agent_manager.py and to the listing in main_code.py |
| Workflow.Responses | agent_manager.py:594-616 | one response per action, each the dispatch of that action at its position |
| Workflow.RunAgent | agent_manager.py:596-611 | one action runs the agent it names, or gives `Unknown action: <a>` |
| Workflow.RunAgents | agent_manager.py:594-616 | the loop over the actions gives `Responses`, one reply per action in order |
| Workflow.AgentState.RouteQuery | agent_manager.py:519-583 | `route_query` sets the actions to the routing result and stores a message only on the paths that report one |
| Workflow.AgentState.ExecuteTools | main_code.py:417-445 | `execute_tools` stores `ExecuteOutcome`, or raises its TypeError and stores nothing |
| Workflow.AgentManager | agent_manager.py:627-669 | route then execute in a fresh state gives `AgentManagerReply`; the routing message is always overwritten |
| Workflow.ExecuteCases | agent_manager.py:589-623 | falsy actions give the fixed message; a truthy int or bool raises; a truthy iterable gives one response per action joined by blank lines, so "I couldn't process" is never reached |
| Workflow.DispatchVisible | agent_manager.py:594-611 | every action's reply holds visible text, an unknown action included |
| Workflow.StoredVisible | agent_manager.py:589-623 | whatever `execute_tools` stores holds visible text |
| Workflow.ReplyIsStored | main_code.py:471-477 | `agent_manager` returns the stored response or the exception's text, never the "Sorry…" text |
| Workflow.AgentManagerWithFallback | agent_manager.py:689-705 | the fallback never replaces the reply: the result is `agent_manager`'s reply |
| Workflow.AddressedQueryIsMail | agent_manager.py:524-528 | in agent_manager.py a query holding an address gets exactly the mail agent's reply |
| Workflow.NoClientNoActions | agent_manager.py:554-558 | without a Groq client an unrouted query gets "No specific actions…", not the client error |
| Workflow.NoClientLists | main_code.py:390-393 | in main_code.py without a Groq client an unmatched query gets the listing's reply |
| Workflow.NumberOfAgentsRaises | agent_manager.py:594 | a nonzero number as the actions gives "Error processing your request: 'int' object is not iterable" |
| Workflow.DirectTestDispatches | agent_manager.py:671-687 | `direct_test` runs the named agent as `execute_tools` would, and reports other names as unknown agents |

## Left out

- The Streamlit user interface (agent_manager.py:707-755, main_code.py:479-553, `app.py`), `check_secret.py`, `generate_tokens.py` and the OAuth flow. `get_google_credentials` and `get_groq_client` become the `setup` and `LlmCall` inputs.
- `agent_managerr.py`, which is not valid Python and is not imported.
- The Groq, Google Calendar and Gmail calls, the prompts sent to Groq, MIME construction, base64 encoding, and reading the sender profile. Their outcomes are inputs.
- The JSON grammar: `json.loads` is an abstract function. Floating-point JSON numbers are not modelled, only integers.
- `datetime`, `pytz`, `strptime`, `strftime`, `fromisoformat` and `astimezone` are abstract `Clock` fields. The 30-day listing horizon and `utcnow` belong to the calendar input.
- The regular expressions for the subject patterns, the content phrases and the `re.sub` clean-ups of `send_email` and `generate_template_email` are abstract functions, applied in the source's order. The address, `to <name>`, `"agents"` salvage and `from X to Y pm` patterns are modelled on ASCII text (see the Unicode lines below).
- The LangGraph `StateGraph` wiring: it is the sequential composition that `Workflow.AgentManager` performs.
- Debug `print` output and tracebacks.
- The `except` branches that cannot be reached:
  - "❌ Error executing" in `execute_tools`: every agent catches its own exceptions and returns text.
  - `direct_test`'s "Error:".
  - `agent_manager_with_fallback`'s "An error occurred…": `agent_manager` catches every exception raised while the graph runs, and building the graph (agent_manager.py:631-646, before its `try`) is assumed not to fail.
- Event records from the calendar without a `start` key or with a malformed `end`: every listed event is either timed or all-day.
- A Groq reply whose `content` is None.
- The `current_agent` field is kept in `AgentState` but nothing writes it.
- The `if not credentials_path` check in `send_email` of agent_manager.py, which cannot fail once credentials were obtained.
- Text.Lower: only ASCII capitals are lowered. Python's `str.lower` also lowers other capitals, and some change length: `'İ'.lower()` is two characters. So the routing keywords of main_code.py:362-372 can match in Python where the model sees no match, as with the Kelvin sign U+212A in "BOO\u212A a room".
- Unicode digits: `\d` and `int()` accept non-ASCII decimal digits, so "from \u0664 pm to \u0666 pm" sets the end to 18:00 (agent_manager.py:156-165). The model accepts only `0`-`9`.
- Unicode letters under IGNORECASE: `[a-zA-Z]` with `re.IGNORECASE` also matches `İ`, `ı`, `ſ` and U+212A (agent_manager.py:377). The model's name characters are ASCII letters, digits and whitespace.
- Json.EscapeChar: `repr` of a str escapes every non-printable character, U+00A0 included, but this function escapes only the quote, the backslash, the characters below space and DEL, so `str()` of a list holding other non-printable characters differs.
