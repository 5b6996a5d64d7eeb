/** `route_query` (agent_manager.py:519-583, main_code.py:358-415): the actions a query
    is sent to. agent_manager.py tries an address and e-mail keywords before asking
    the model; main_code.py tries creation, listing and e-mail phrases in that order. */
module Router {
  import opened Base
  import opened Text
  import opened Json
  import opened Services
  import opened Address

  /** What routing leaves in the state: the actions, and the message it stores in
      `final_response` when it stores one. */
  datatype Routed = Routed(actions: Json, message: Option<string>)

  const EmailOnly: Json := JArr([JStr("email")])
  const CreateOnly: Json := JArr([JStr("calendar_create")])
  const ListOnly: Json := JArr([JStr("calendar_list")])

  const EmailKeywords: seq<string> := ["send email", "compose email", "write email", "mail to", "email to"]
  const CreatePhrases: seq<string> := ["schedule", "create event", "add to calendar", "book"]
  const ListPhrases: seq<string> := ["list", "show", "upcoming events", "my events", "what events"]
  const EmailPhrases: seq<string> := ["send email", "email to", "write email", "compose email"]

  function RouteError(message: string): string {
    "\U{274C} Error determining required agents: " + message
  }

  /** The model's routing: `safe_json_parse(reply, default={"agents": ["calendar_list"]})`
      and then `.get("agents", ["calendar_list"])`, which raises AttributeError when
      the parsed value is not a dict. Without a client agent_manager.py routes
      nowhere and main_code.py to the listing. */
  function LlmRoute(variant: Variant, loads: Loads, llm: LlmCall): Routed {
    match llm
    case NoClient => Routed(if variant == AgentManagerFile then JArr([]) else ListOnly, Some(GroqMissing))
    case Raised(m) => Routed(ListOnly, Some(RouteError(m)))
    case Replied(content) =>
      match Get(SafeJsonParse(loads, content, Some(DefaultAgents)), "agents", ListOnly)
      case Ok(agents) => Routed(agents, None)
      case Err(m) => Routed(ListOnly, Some(RouteError(m)))
  }

  /** agent_manager.py's `route_query`: an address, then an e-mail keyword, then the model. */
  function RouteAddressFirst(loads: Loads, llm: LlmCall, query: string): Routed {
    if FirstAddress(query).Some? then Routed(EmailOnly, None)
    else if ContainsAny(Lower(query), EmailKeywords) then Routed(EmailOnly, None)
    else LlmRoute(AgentManagerFile, loads, llm)
  }

  /** main_code.py's `route_query`: creation, listing and e-mail phrases, then the model. */
  function RouteKeywordFirst(loads: Loads, llm: LlmCall, query: string): Routed {
    var lq := Lower(query);
    if ContainsAny(lq, CreatePhrases) then Routed(CreateOnly, None)
    else if ContainsAny(lq, ListPhrases) then Routed(ListOnly, None)
    else if ContainsAny(lq, EmailPhrases) then Routed(EmailOnly, None)
    else LlmRoute(MainCodeFile, loads, llm)
  }

  function Route(variant: Variant, loads: Loads, llm: LlmCall, query: string): Routed {
    match variant
    case AgentManagerFile => RouteAddressFirst(loads, llm, query)
    case MainCodeFile => RouteKeywordFirst(loads, llm, query)
  }

  /** In agent_manager.py a query holding an address goes to the mail agent alone,
      whatever the model would have said. */
  lemma AddressRoutesToEmail(loads: Loads, llm: LlmCall, other: LlmCall, query: string)
    requires HasAddress(query)
    ensures RouteAddressFirst(loads, llm, query) == Routed(EmailOnly, None)
    ensures RouteAddressFirst(loads, llm, query) == RouteAddressFirst(loads, other, query)
  {
    FirstAddressIff(query);
  }

  /** In agent_manager.py the model is asked only when the query holds neither an
      address nor an e-mail keyword. */
  lemma AddressFirstAsksModel(loads: Loads, llm: LlmCall, query: string)
    ensures !HasAddress(query) && !ContainsAny(Lower(query), EmailKeywords) ==>
      RouteAddressFirst(loads, llm, query) == LlmRoute(AgentManagerFile, loads, llm)
    ensures HasAddress(query) || ContainsAny(Lower(query), EmailKeywords) ==>
      RouteAddressFirst(loads, llm, query) == Routed(EmailOnly, None)
  {
    FirstAddressIff(query);
  }

  /** In main_code.py the first phrase list that matches decides, in the order
      creation, listing, e-mail, and the model is not asked. */
  lemma KeywordFirstOrder(loads: Loads, llm: LlmCall, other: LlmCall, query: string)
    ensures var lq := Lower(query);
      && (ContainsAny(lq, CreatePhrases) ==> RouteKeywordFirst(loads, llm, query) == Routed(CreateOnly, None))
      && (!ContainsAny(lq, CreatePhrases) && ContainsAny(lq, ListPhrases) ==>
            RouteKeywordFirst(loads, llm, query) == Routed(ListOnly, None))
      && (!ContainsAny(lq, CreatePhrases) && !ContainsAny(lq, ListPhrases) && ContainsAny(lq, EmailPhrases) ==>
            RouteKeywordFirst(loads, llm, query) == Routed(EmailOnly, None))
      && (ContainsAny(lq, CreatePhrases) || ContainsAny(lq, ListPhrases) || ContainsAny(lq, EmailPhrases) ==>
            RouteKeywordFirst(loads, llm, query) == RouteKeywordFirst(loads, other, query))
  {
  }

  /** The model's routing: the `agents` member of what `safe_json_parse` gives when
      that is a dict (`["calendar_list"]` when it has none), `["calendar_list"]`
      with the AttributeError's text otherwise, and `["calendar_list"]` with an error
      message when the call raised. */
  lemma LlmRouteCases(variant: Variant, loads: Loads, llm: LlmCall)
    ensures llm.Raised? ==> LlmRoute(variant, loads, llm) == Routed(ListOnly, Some(RouteError(llm.message)))
    ensures llm.Replied? ==>
      var parsed := SafeJsonParse(loads, llm.content, Some(DefaultAgents));
      && (parsed.JObj? && HasKey(parsed.fields, "agents") ==>
            LlmRoute(variant, loads, llm) == Routed(Lookup(parsed.fields, "agents").value, None))
      && (parsed.JObj? && !HasKey(parsed.fields, "agents") ==> LlmRoute(variant, loads, llm) == Routed(ListOnly, None))
      && (!parsed.JObj? ==>
            LlmRoute(variant, loads, llm)
              == Routed(ListOnly, Some(RouteError("'" + TypeName(parsed) + "' object has no attribute 'get'"))))
    ensures llm.NoClient? ==>
      && LlmRoute(variant, loads, llm).message == Some(GroqMissing)
      && LlmRoute(variant, loads, llm).actions == (if variant == AgentManagerFile then JArr([]) else ListOnly)
  {
  }

  /** A character of `sub` that `s` lacks keeps `sub` out of `s`. */
  lemma {:induction false} AbsentChar(s: string, sub: string, c: char)
    requires c in sub && c !in s
    ensures !Contains(s, sub)
    decreases |s|
  {
    if |sub| <= |s| {
      assert s[..|sub|] != sub by {
        var k :| 0 <= k < |sub| && sub[k] == c;
        assert s[..|sub|][k] == s[k];
      }
      assert c !in s[1..] by {
        assert forall k :: 0 <= k < |s| - 1 ==> s[1..][k] == s[k + 1];
      }
      AbsentChar(s[1..], sub, c);
    }
  }

  lemma SendToListLetters(lq: string)
    requires lq == "send email to list@x.com"
    ensures 'h' !in lq && 'r' !in lq && 'k' !in lq
  {
  }

  lemma SendToListNoCreate(lq: string)
    requires lq == "send email to list@x.com"
    ensures !ContainsAny(lq, CreatePhrases)
  {
    SendToListLetters(lq);
    AbsentChar(lq, "schedule", 'h');
    AbsentChar(lq, "create event", 'r');
    AbsentChar(lq, "add to calendar", 'r');
    AbsentChar(lq, "book", 'k');
    forall k | 0 <= k < |CreatePhrases| ensures !Contains(lq, CreatePhrases[k]) {
    }
  }

  lemma SendToListRouting(lq: string)
    requires lq == "send email to list@x.com"
    ensures !ContainsAny(lq, CreatePhrases) && ContainsAny(lq, ListPhrases)
  {
    SendToListNoCreate(lq);
    assert lq[14..18] == "list";
    ContainsAt(lq, "list", 14);
    assert Contains(lq, ListPhrases[0]);
  }

  lemma SendToListAddress(q: string)
    requires q == "send email to list@x.com"
    ensures FirstAddress(q).Some?
  {
    assert IsAddress(q[14..24]) by {
      var t := q[14..24];
      assert AddressShape(t, 4, 6);
    }
    FirstAddressIff(q);
  }

  lemma SendToListLower(q: string)
    requires q == "send email to list@x.com"
    ensures Lower(q) == q
  {
    LowerUnchanged(q);
  }

  /** The two rule orders disagree: "send email to list@x.com" goes to the mail agent
      in agent_manager.py and, because it holds "list", to the listing in main_code.py. */
  lemma RouteOrdersDiffer(loads: Loads, llm: LlmCall, q: string)
    requires q == "send email to list@x.com"
    ensures Route(AgentManagerFile, loads, llm, q) == Routed(EmailOnly, None)
    ensures Route(MainCodeFile, loads, llm, q) == Routed(ListOnly, None)
  {
    SendToListAddress(q);
    SendToListLower(q);
    SendToListRouting(q);
  }
}
