/**
 * What the three chat back ends share: responses as status and JSON body, the
 * abstract outcome of the outbound completion call, the outbound request,
 * and the reply extraction `data.choices[0]?.message?.content || fallback`
 * that both JavaScript handlers use.
 */
module Http {
  import opened Wrappers
  import opened Json
  import opened QuestionBank

  /** An HTTP status code. */
  type Status = s: int | 100 <= s <= 599 witness 200

  /** 2xx: what httpx's `raise_for_status`, axios and fetch's `ok` accept. */
  predicate IsSuccess(s: int) {
    200 <= s <= 299
  }

  /**
   * A response body. `Failure` is `{"error": …}` in JavaScript and
   * `{"detail": …}` in Python.
   */
  datatype Body =
    | Reply(response: JsonValue)
    | Failure(message: string)
    | NewSession(success: bool, sessionId: JsonValue, message: string)
    | Question(record: QuestionRecord)

  datatype Response = Response(status: Status, body: Body)

  /**
   * One element of the upstream's `choices` array: `NoMessage` when it has no
   * `message` object; otherwise `message.content` (`Undefined` when absent).
   */
  datatype Choice = NoMessage | Message(content: JsonValue)

  /** The upstream's body: not JSON, or JSON whose `choices` may be absent. */
  datatype Completion = NotJson | Parsed(choices: Option<seq<Choice>>)

  /** How the outbound completion call ends. */
  datatype Upstream = Responded(status: Status, completion: Completion) | TransportError

  /** One chat turn `{role, content}` of the outbound request. */
  datatype Turn = Turn(role: string, content: JsonValue)

  /** The outbound POST: URL, bearer key, model name and chat turns. */
  datatype Outbound = Outbound(url: string, apiKey: string, model: string, messages: seq<Turn>)

  /** The environment variables `OPENAI_API_KEY` and `OPENAI_BASE_URL`. */
  datatype Env = Env(apiKey: Option<string>, baseUrl: Option<string>)

  /** An environment variable passes a `!value` test: set and non-empty. */
  predicate IsSet(v: Option<string>) {
    v.Some? && v.value != ""
  }

  /**
   * An incoming request as the edge handler sees it: the (normalised) method, `verb`,
   * and the outcome of `await req.json()`.
   */
  datatype HttpRequest = HttpRequest(verb: string, body: RequestBody)

  /** A handler's first stage: answer at once, or make the outbound call. */
  datatype Step = Respond(response: Response) | Call(request: Outbound)

  const SystemPrompt: string :=
    "You are an expert in project-based learning. You specialize in "
      + "teaching AI and deep learning through projects. Task: The learner "
      + "wants to discuss some content in the tutorial with you. You will be "
      + "given the framework of the tutorial, a summary of the learner's "
      + "current progress, and the content they have questions about. "
      + "Requirements: 1. Be engaging, helpful, and ready to answer questions "
      + "as long as they relate to the tutorial. Do not give away the full "
      + "answer to a complex question right away. Guide the learner to think "
      + "first. Progressively provide more assistance if the learner has "
      + "trouble figuring out the problem on their own. 2. If the learner "
      + "deviates too much from the tutorial, remind them to stay on track. 3. "
      + "Encourage the learner when needed, such as when they have trouble "
      + "fixing a bug. 4. All math formulas should be written in LaTex format "
      + "and surrounded by dollar signs ($ or $$). 5. All hyperlinks should be "
      + "written in markdown format like this: [link text](link URL)."

  const NoReplyText: string := "Sorry, I could not get a response."
  const DefaultBaseUrl: string := "https://api.openai.com/v1/chat/completions"
  const SessionCreatedText: string := "New chat session created successfully"

  /** The outbound turns: the system prompt, then the user's message. */
  function Conversation(message: JsonValue): seq<Turn> {
    [Turn("system", Str(SystemPrompt)), Turn("user", message)]
  }

  /** The call answered 2xx with a JSON body. */
  predicate Delivered(u: Upstream) {
    u.Responded? && IsSuccess(u.status) && u.completion.Parsed?
  }

  /** The call answered 2xx with JSON whose `choices` key is absent. */
  predicate ChoicesAbsent(u: Upstream) {
    Delivered(u) && u.completion.choices.None?
  }

  /** The call answered 2xx with JSON whose `choices` is an empty array. */
  predicate ChoicesEmpty(u: Upstream) {
    Delivered(u) && u.completion.choices.Some? && u.completion.choices.value == []
  }

  /** The call answered 2xx and its first choice has a `message.content`. */
  predicate HasFirstContent(u: Upstream) {
    && Delivered(u) && u.completion.choices.Some? && u.completion.choices.value != []
    && u.completion.choices.value[0].Message? && u.completion.choices.value[0].content != Undefined
  }

  /** `choices[0].message.content`. */
  function FirstContent(u: Upstream): JsonValue
    requires HasFirstContent(u)
  {
    u.completion.choices.value[0].content
  }

  /**
   * `data.choices[0]?.message?.content || "Sorry, I could not get a response."`
   * on a 2xx body; `None` where evaluating it throws (the body is not JSON, or
   * `data.choices` is undefined).
   */
  function JsReply(c: Completion): (r: Option<JsonValue>)
    ensures r.Some? ==> Truthy(r.value)
  {
    match c
    case NotJson => None
    case Parsed(None) => None
    case Parsed(Some(cs)) =>
      var content := if cs != [] && cs[0].Message? then cs[0].content else Undefined;
      Some(if Truthy(content) then content else Str(NoReplyText))
  }
}
