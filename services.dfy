/** The collaborators of the pipeline, as values the model is given: the Groq chat
    call, the date-time library, `json.loads`, and which of the two versions of the
    pipeline (agent_manager.py or main_code.py) is meant. */
module Services {
  import opened Base
  import opened Json

  /** One Groq chat call: `get_groq_client()` gave None, the call raised (with the
      exception's text), or it replied with this message content. */
  datatype LlmCall = NoClient | Raised(message: string) | Replied(content: string)

  /** The two versions of the pipeline; where their code differs the model branches on this. */
  datatype Variant = AgentManagerFile | MainCodeFile

  /** The date-time library calls, with a date-time as absolute minutes
      (day * 1440 + hour * 60 + minute), so that `+ timedelta(hours=1)` and
      `replace(hour=h, minute=0)` are integer arithmetic. */
  datatype Clock = Clock(
    /** `datetime.strptime(s, '%Y-%m-%dT%H:%M:%S')`, or the ValueError's text */
    strptime: string -> Result<nat>,
    /** `strftime('%A, %B %d, %Y')` */
    dateLine: nat -> string,
    /** `strftime('%I:%M %p')` */
    clockTime: nat -> string,
    /** `datetime.fromisoformat(s).astimezone(ist).strftime('%b %d, %I:%M %p')` */
    listStart: string -> Result<string>,
    /** `datetime.fromisoformat(s).astimezone(ist).strftime('%I:%M %p')` */
    listEnd: string -> Result<string>,
    /** `datetime.fromisoformat(s).strftime('%b %d')` */
    listDay: string -> Result<string>)

  /** The library functions every handler shares. */
  datatype Library = Library(loads: Loads, clock: Clock)

  /** The reply of every handler whose Groq client is missing. */
  const GroqMissing: string := "\U{274C} Error initializing Groq client. Please check your API key."
}
