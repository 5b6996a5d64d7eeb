/** The two-stage pipeline of both files: `route_query` fills the state's actions,
    `execute_tools` runs the agent each action names and stores the joined
    replies, and `agent_manager` returns what was stored (agent_manager.py:585-705,
    main_code.py:417-477). */
module Workflow {
  import opened Base
  import opened Text
  import opened Json
  import opened Services
  import opened Address
  import opened Router
  import opened CalendarCreate
  import opened CalendarList
  import opened Email

  /** The collaborators of one run: the library functions, the mail agent's
      patterns, the Groq answer to the routing prompt, and, for the action at each
      position of the action list, the answers its agent gets. */
  datatype World = World(lib: Library, rx: EmailPatterns, route: LlmCall,
                         create: nat -> CreateEnv, list: nat -> ListEnv, email: nat -> EmailEnv)

  const NoActions: string := "No specific actions were identified from your request. Please try again with a clearer request."
  const NoResponses: string := "I couldn't process your request. Please try again."
  const NoReply: string := "Sorry, I couldn't generate a response for your request."
  const Fallback: string := "I couldn't process your request properly. Please try again or try a different request."

  function Processing(message: string): string {
    "Error processing your request: " + message
  }

  /** The TypeError text of `for action in actions` when `actions` is not iterable. */
  function NotIterable(v: Json): string {
    "'" + TypeName(v) + "' object is not iterable"
  }

  function UnknownAction(action: Json): string {
    "Unknown action: " + PyStr(action)
  }

  /** The reply of the agent that the action at position `i` names, compared with
      Python's `==`. */
  function Dispatch(variant: Variant, w: World, query: string, i: nat, action: Json): string {
    if PyEq(action, JStr("calendar_create")) then CreateReply(variant, w.lib, w.create(i), query)
    else if PyEq(action, JStr("calendar_list")) then ListReply(variant, w.lib.clock, w.list(i), query)
    else if PyEq(action, JStr("email")) then EmailReply(variant, w.rx, w.email(i), query)
    else UnknownAction(action)
  }

  /** The replies to a list of actions, appended one by one in the actions' order,
      `reply(k, a)` being the reply to action `a` at position `k`. */
  function Replies(reply: (nat, Json) -> string, items: seq<Json>): (r: seq<string>)
    ensures |r| == |items|
    ensures forall k :: 0 <= k < |items| ==> r[k] == reply(k, items[k])
    decreases |items|
  {
    if items == [] then []
    else
      var n := |items| - 1;
      var before := Replies(reply, items[..n]);
      assert forall k :: 0 <= k < n ==> items[..n][k] == items[k];
      before + [reply(n, items[n])]
  }

  /** The `responses` list: one reply per action, in the actions' order. */
  function Responses(variant: Variant, w: World, query: string, items: seq<Json>): (r: seq<string>)
    ensures |r| == |items|
    ensures forall k :: 0 <= k < |items| ==> r[k] == Dispatch(variant, w, query, k, items[k])
  {
    Replies((k: nat, a: Json) => Dispatch(variant, w, query, k, a), items)
  }

  /** One more action adds its reply at the end. */
  lemma ResponsesStep(variant: Variant, w: World, query: string, items: seq<Json>, i: nat)
    requires i < |items|
    ensures Responses(variant, w, query, items[..i + 1])
      == Responses(variant, w, query, items[..i]) + [Dispatch(variant, w, query, i, items[i])]
  {
    assert items[..i + 1][..i] == items[..i];
  }

  /** What `execute_tools` stores in `final_response`, or the text of the TypeError
      it raises when the actions are a truthy value that cannot be iterated. */
  function ExecuteOutcome(variant: Variant, w: World, query: string, actions: Json): Result<string> {
    if !Truthy(actions) then Ok(NoActions)
    else
      match Iterate(actions)
      case None => Err(NotIterable(actions))
      case Some(items) =>
        var responses := Responses(variant, w, query, items);
        if responses == [] then Ok(NoResponses) else Ok(Join(responses, "\n\n"))
  }

  /** The reply of `agent_manager(query)`: the stored response when it is not
      empty, the apology otherwise, and the error text when the graph raised. */
  function AgentManagerReply(variant: Variant, w: World, query: string): string {
    var routed := Route(variant, w.lib.loads, w.route, query);
    match ExecuteOutcome(variant, w, query, routed.actions)
    case Err(m) => Processing(m)
    case Ok(stored) => if stored != "" then stored else NoReply
  }

  /** `direct_test(query, forced_agent)` of agent_manager.py. */
  function DirectTest(w: World, query: string, forced: string): string {
    if forced == "calendar_create" then CreateReply(AgentManagerFile, w.lib, w.create(0), query)
    else if forced == "calendar_list" then ListReply(AgentManagerFile, w.lib.clock, w.list(0), query)
    else if forced == "email" then EmailReply(AgentManagerFile, w.rx, w.email(0), query)
    else "Unknown agent: " + forced
  }

  /** The state the graph passes from `route_query` to `execute_tools`. */
  class AgentState {
    var query: string
    var actions: Json
    var currentAgent: string
    var finalResponse: string

    /** The state `agent_manager` invokes the graph with. */
    constructor (query: string)
      ensures this.query == query && actions == JArr([]) && currentAgent == "" && finalResponse == ""
    {
      this.query := query;
      actions := JArr([]);
      currentAgent := "";
      finalResponse := "";
    }

    /** `route_query`: sets the actions, and stores a message in `final_response`
        only on the paths that report a problem. */
    method RouteQuery(variant: Variant, loads: Loads, llm: LlmCall)
      modifies this
      ensures query == old(query) && currentAgent == old(currentAgent)
      ensures actions == Route(variant, loads, llm, query).actions
      ensures finalResponse == (match Route(variant, loads, llm, query).message
                                case Some(m) => m
                                case None => old(finalResponse))
    {
      if variant == AgentManagerFile {
        if FirstAddress(query).Some? {
          actions := EmailOnly;
          return;
        }
        if ContainsAny(Lower(query), EmailKeywords) {
          actions := EmailOnly;
          return;
        }
      } else {
        var lq := Lower(query);
        if ContainsAny(lq, CreatePhrases) {
          actions := CreateOnly;
          return;
        }
        if ContainsAny(lq, ListPhrases) {
          actions := ListOnly;
          return;
        }
        if ContainsAny(lq, EmailPhrases) {
          actions := EmailOnly;
          return;
        }
      }
      match llm {
        case NoClient =>
          actions := if variant == AgentManagerFile then JArr([]) else ListOnly;
          finalResponse := GroqMissing;
        case Raised(m) =>
          actions := ListOnly;
          finalResponse := RouteError(m);
        case Replied(content) =>
          var parsed := SafeJsonParse(loads, content, Some(DefaultAgents));
          var agents := Get(parsed, "agents", ListOnly);
          if agents.Ok? {
            actions := agents.value;
          } else {
            actions := ListOnly;
            finalResponse := RouteError(agents.error);
          }
      }
    }

    /** `execute_tools`: runs one agent per action and stores the joined replies;
        `raised` is the TypeError's text when the actions cannot be iterated, and
        then nothing is stored. */
    method ExecuteTools(variant: Variant, w: World) returns (raised: Option<string>)
      modifies this
      ensures query == old(query) && actions == old(actions) && currentAgent == old(currentAgent)
      ensures match ExecuteOutcome(variant, w, query, actions)
              case Ok(stored) => raised.None? && finalResponse == stored
              case Err(m) => raised == Some(m) && finalResponse == old(finalResponse)
    {
      if !Truthy(actions) {
        finalResponse := NoActions;
        return None;
      }
      var iterated := Iterate(actions);
      if iterated.None? {
        return Some(NotIterable(actions));
      }
      var responses := RunAgents(variant, w, query, iterated.value);
      if responses == [] {
        // A truthy iterable has an item, so the "couldn't process" message is
        // never stored.
        assert false;
      } else {
        finalResponse := Join(responses, "\n\n");
      }
      return None;
    }
  }

  /** One pass of `execute_tools`' loop: the agent the action names, or the
      "unknown action" reply. */
  method RunAgent(variant: Variant, w: World, query: string, i: nat, action: Json) returns (response: string)
    ensures response == Dispatch(variant, w, query, i, action)
  {
    if PyEq(action, JStr("calendar_create")) {
      response := CreateCalendarEvent(variant, w.lib, w.create(i), query);
    } else if PyEq(action, JStr("calendar_list")) {
      response := ListCalendarEvents(variant, w.lib.clock, w.list(i), query);
    } else if PyEq(action, JStr("email")) {
      response := SendEmail(variant, w.rx, w.email(i), query);
    } else {
      response := UnknownAction(action);
    }
  }

  /** The loop of `execute_tools`: one reply per action, in the actions' order. */
  method RunAgents(variant: Variant, w: World, query: string, items: seq<Json>) returns (responses: seq<string>)
    ensures responses == Responses(variant, w, query, items)
  {
    responses := [];
    var i := 0;
    while i < |items|
      invariant i <= |items|
      invariant responses == Responses(variant, w, query, items[..i])
    {
      var response := RunAgent(variant, w, query, i, items[i]);
      ResponsesStep(variant, w, query, items, i);
      responses := responses + [response];
      i := i + 1;
    }
    assert items[..i] == items;
  }

  /** `agent_manager(query)`: route, execute, and pick the reply. */
  method AgentManager(variant: Variant, w: World, query: string) returns (reply: string)
    ensures reply == AgentManagerReply(variant, w, query)
  {
    var state := new AgentState(query);
    state.RouteQuery(variant, w.lib.loads, w.route);
    var raised := state.ExecuteTools(variant, w);
    if raised.Some? {
      return Processing(raised.value);
    }
    if state.finalResponse != "" {
      reply := state.finalResponse;
    } else {
      reply := NoReply;
    }
  }

  /** The agent an action names answers with visible text, and so does an action
      no agent handles. */
  lemma DispatchVisible(variant: Variant, w: World, query: string, i: nat, action: Json)
    ensures HasVisible(Dispatch(variant, w, query, i, action))
  {
    if PyEq(action, JStr("calendar_create")) {
      CreateReplyVisible(variant, w.lib, w.create(i), query);
    } else if PyEq(action, JStr("calendar_list")) {
      ListReplyVisible(variant, w.lib.clock, w.list(i), query);
    } else if PyEq(action, JStr("email")) {
      EmailReplyVisible(variant, w.rx, w.email(i), query);
    } else {
      VisibleFirst(UnknownAction(action));
    }
  }

  /** `execute_tools`: a falsy action list stores the fixed message; a truthy one
      that can be iterated stores one reply per action, in order, joined by blank
      lines, and never reaches the "couldn't process" message, because a truthy
      iterable is never empty; a truthy int or bool raises a TypeError. */
  lemma ExecuteCases(variant: Variant, w: World, query: string, actions: Json)
    ensures !Truthy(actions) ==> ExecuteOutcome(variant, w, query, actions) == Ok(NoActions)
    ensures Truthy(actions) && Iterate(actions).None? ==>
      && (actions.JNum? || actions.JBool?)
      && ExecuteOutcome(variant, w, query, actions) == Err(NotIterable(actions))
    ensures Truthy(actions) && Iterate(actions).Some? ==>
      var responses := Responses(variant, w, query, Iterate(actions).value);
      && responses != []
      && ExecuteOutcome(variant, w, query, actions) == Ok(Join(responses, "\n\n"))
  {
  }

  /** Whatever `execute_tools` stores holds visible text. */
  lemma StoredVisible(variant: Variant, w: World, query: string, actions: Json)
    ensures ExecuteOutcome(variant, w, query, actions).Ok? ==>
      HasVisible(ExecuteOutcome(variant, w, query, actions).value)
  {
    if !Truthy(actions) {
      VisibleLast(NoActions);
    } else if Iterate(actions).Some? {
      var items := Iterate(actions).value;
      var responses := Responses(variant, w, query, items);
      DispatchVisible(variant, w, query, 0, items[0]);
      JoinVisible(responses, "\n\n", 0);
    }
  }

  /** `agent_manager` never falls back to its apology: it returns what
      `execute_tools` stored, or the text of the exception, and either holds
      visible text. */
  lemma ReplyIsStored(variant: Variant, w: World, query: string)
    ensures var outcome := ExecuteOutcome(variant, w, query, Route(variant, w.lib.loads, w.route, query).actions);
      && (outcome.Ok? ==> AgentManagerReply(variant, w, query) == outcome.value)
      && (outcome.Err? ==> AgentManagerReply(variant, w, query) == Processing(outcome.error))
    ensures HasVisible(AgentManagerReply(variant, w, query))
  {
    var routed := Route(variant, w.lib.loads, w.route, query);
    var outcome := ExecuteOutcome(variant, w, query, routed.actions);
    StoredVisible(variant, w, query, routed.actions);
    if outcome.Err? {
      VisibleFirst(Processing(outcome.error));
    }
  }

  /** `agent_manager_with_fallback(query)`: the fallback text replaces an empty or
      blank reply; since the reply of `agent_manager` is never blank, the result
      is always that reply. */
  method AgentManagerWithFallback(w: World, query: string) returns (reply: string)
    ensures reply == AgentManagerReply(AgentManagerFile, w, query)
  {
    var response := AgentManager(AgentManagerFile, w, query);
    ReplyIsStored(AgentManagerFile, w, query);
    StripEmptyIff(response);
    if response == "" || Strip(response) == "" {
      reply := Fallback;
    } else {
      reply := response;
    }
  }

  /** When routing leaves a single action, the reply is that action's reply. */
  lemma OneActionReply(variant: Variant, w: World, query: string, action: Json)
    requires Route(variant, w.lib.loads, w.route, query).actions == JArr([action])
    ensures AgentManagerReply(variant, w, query) == Dispatch(variant, w, query, 0, action)
  {
    var reply := Dispatch(variant, w, query, 0, action);
    assert Responses(variant, w, query, [action]) == [reply];
    assert ExecuteOutcome(variant, w, query, JArr([action])) == Ok(reply);
    ReplyIsStored(variant, w, query);
  }

  lemma DispatchEmail(variant: Variant, w: World, query: string, i: nat)
    ensures Dispatch(variant, w, query, i, JStr("email")) == EmailReply(variant, w.rx, w.email(i), query)
  {
    assert !PyEq(JStr("email"), JStr("calendar_create"));
    assert !PyEq(JStr("email"), JStr("calendar_list"));
  }

  lemma DispatchList(variant: Variant, w: World, query: string, i: nat)
    ensures Dispatch(variant, w, query, i, JStr("calendar_list")) == ListReply(variant, w.lib.clock, w.list(i), query)
  {
    assert !PyEq(JStr("calendar_list"), JStr("calendar_create"));
  }

  /** In agent_manager.py a query holding an address gets exactly the mail agent's
      reply, whatever the model would have routed. */
  lemma AddressedQueryIsMail(w: World, query: string)
    requires HasAddress(query)
    ensures AgentManagerReply(AgentManagerFile, w, query) == EmailReply(AgentManagerFile, w.rx, w.email(0), query)
  {
    AddressRoutesToEmail(w.lib.loads, w.route, w.route, query);
    OneActionReply(AgentManagerFile, w, query, JStr("email"));
    DispatchEmail(AgentManagerFile, w, query, 0);
  }

  /** Without a Groq client, agent_manager.py routes a query with neither an
      address nor an e-mail keyword nowhere: the stored client error is replaced
      by the "no actions" message. */
  lemma NoClientNoActions(w: World, query: string)
    requires !HasAddress(query) && !ContainsAny(Lower(query), EmailKeywords) && w.route.NoClient?
    ensures AgentManagerReply(AgentManagerFile, w, query) == NoActions
  {
    AddressFirstAsksModel(w.lib.loads, w.route, query);
    assert Route(AgentManagerFile, w.lib.loads, w.route, query).actions == JArr([]);
  }

  /** Without a Groq client, main_code.py answers a query no phrase matches with
      the listing: the stored client error is replaced by the listing's reply. */
  lemma NoClientLists(w: World, query: string)
    requires w.route.NoClient?
    requires var lq := Lower(query);
      !ContainsAny(lq, CreatePhrases) && !ContainsAny(lq, ListPhrases) && !ContainsAny(lq, EmailPhrases)
    ensures AgentManagerReply(MainCodeFile, w, query) == ListReply(MainCodeFile, w.lib.clock, w.list(0), query)
  {
    assert Route(MainCodeFile, w.lib.loads, w.route, query).actions == ListOnly;
    OneActionReply(MainCodeFile, w, query, JStr("calendar_list"));
    DispatchList(MainCodeFile, w, query, 0);
  }

  /** A routing answer whose "agents" is a nonzero number makes the loop of
      `execute_tools` raise, and `agent_manager` reports the TypeError. */
  lemma NumberOfAgentsRaises(variant: Variant, w: World, query: string, n: int)
    requires Route(variant, w.lib.loads, w.route, query).actions == JNum(n) && n != 0
    ensures AgentManagerReply(variant, w, query) == Processing("'int' object is not iterable")
  {
    assert ExecuteOutcome(variant, w, query, JNum(n)) == Err(NotIterable(JNum(n)));
    ReplyIsStored(variant, w, query);
    IntNotIterable(n);
  }

  lemma IntNotIterable(n: int)
    ensures NotIterable(JNum(n)) == "'int' object is not iterable"
  {
    assert TypeName(JNum(n)) == "int";
  }

  /** `direct_test` runs the agent it is told to, as `execute_tools` does for an
      action of that name; other names are reported as unknown agents. */
  lemma DirectTestDispatches(w: World, query: string, forced: string)
    ensures forced in {"calendar_create", "calendar_list", "email"} ==>
      DirectTest(w, query, forced) == Dispatch(AgentManagerFile, w, query, 0, JStr(forced))
    ensures forced !in {"calendar_create", "calendar_list", "email"} ==>
      DirectTest(w, query, forced) == "Unknown agent: " + forced
  {
  }
}
