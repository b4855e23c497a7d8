/**
 * The Express server: its `/api/chat`, `/api/chat/new` and `/api/checkpoint`
 * routes and its question bank, which holds only sections 1.1 and 1.2. The
 * routes read fields of `req.body` (an object: `express.json()` leaves `{}`
 * when there is no JSON body) and test them with JavaScript truthiness.
 */
module Server {
  import opened Wrappers
  import opened Json
  import opened QuestionBank
  import opened Http

  /** The two checkpoint questions this copy keeps. */
  const Bank: map<string, QuestionRecord> := map[
    "1.1" := QuestionRecord(
      "What is the main purpose of spam classification in the context of this project?",
      [ AnswerOption("a", "To categorize emails by their sender"),
        AnswerOption("b", "To filter unwanted messages from legitimate ones"),
        AnswerOption("c", "To analyze the writing style of different authors"),
        AnswerOption("d", "To compress text data for efficient storage") ],
      "b"),
    "1.2" := QuestionRecord(
      "Which of the following is NOT one of the key steps in the spam classification process?",
      [ AnswerOption("a", "Data Collection"),
        AnswerOption("b", "Text Preprocessing"),
        AnswerOption("c", "Feature Extraction"),
        AnswerOption("d", "Image Recognition") ],
      "d")
  ]

  const Model: string := "gpt-3.5-turbo"

  const MessageRequiredText: string := "Message is required"
  const ConfigErrorText: string := "Server configuration error"
  const ProcessingErrorText: string := "An error occurred while processing your request"
  const SessionRequiredText: string := "Session ID is required"
  const SectionRequiredText: string := "Section ID is required"

  lemma BankIsWellFormed()
    ensures BankWellFormed(Bank)
  {
    forall id | id in Bank ensures WellFormed(Bank[id]) {
      LabelledRecordWellFormed(Bank[id]);
    }
  }

  /** The bank holds sections 1.1 and 1.2 only. */
  lemma BankCoversChapterOneStart()
    ensures Bank.Keys == {"1.1", "1.2"}
  {
  }

  /**
   * `getQuestionForSection`: a string key of the bank finds its record; every
   * other value gets the fallback. The result is always well formed.
   */
  function GetQuestionForSection(sectionId: JsonValue): (r: QuestionRecord)
    ensures sectionId.Str? && sectionId.s in Bank ==> r == Bank[sectionId.s]
    ensures !(sectionId.Str? && sectionId.s in Bank) ==> r == DefaultQuestion
    ensures WellFormed(r)
  {
    BankIsWellFormed();
    LookupValue(Bank, sectionId)
  }

  /** Only the strings "1.1" and "1.2" find a stored record; "2.1" and every other id fall back. */
  lemma OnlyFirstTwoSectionsStored(sectionId: JsonValue)
    ensures sectionId == Str("1.1") || sectionId == Str("1.2") ==>
              GetQuestionForSection(sectionId) == Bank[sectionId.s]
    ensures sectionId != Str("1.1") && sectionId != Str("1.2") ==>
              GetQuestionForSection(sectionId) == DefaultQuestion
  {
    BankCoversChapterOneStart();
  }

  /** `POST /api/checkpoint`: 400 for a falsy `sectionId`, else the looked-up record. */
  function Checkpoint(body: map<string, JsonValue>): (r: Response)
    ensures r.status == 200 <==> Truthy(Field(body, "sectionId"))
    ensures !Truthy(Field(body, "sectionId")) ==> r == Response(400, Failure(SectionRequiredText))
    ensures r.status == 200 ==> r.body == Question(GetQuestionForSection(Field(body, "sectionId")))
  {
    var sectionId := Field(body, "sectionId");
    if !Truthy(sectionId) then Response(400, Failure(SectionRequiredText))
    else Response(200, Question(GetQuestionForSection(sectionId)))
  }

  /** `POST /api/chat/new`: 400 for a falsy `sessionId`, else success echoing it. */
  function NewChat(body: map<string, JsonValue>): (r: Response)
    ensures r.status == 200 <==> Truthy(Field(body, "sessionId"))
    ensures !Truthy(Field(body, "sessionId")) ==> r == Response(400, Failure(SessionRequiredText))
    ensures r.status == 200 ==> r.body.NewSession? && r.body.success && r.body.sessionId == Field(body, "sessionId")
  {
    var sessionId := Field(body, "sessionId");
    if !Truthy(sessionId) then Response(400, Failure(SessionRequiredText))
    else Response(200, NewSession(true, sessionId, SessionCreatedText))
  }

  /**
   * The part of `POST /api/chat` before the outbound call. The base URL falls
   * back to the OpenAI URL when it is unset or empty; only the key is
   * mandatory.
   */
  function ChatRequest(body: map<string, JsonValue>, env: Env): (s: Step)
    ensures s.Respond? <==> !Truthy(Field(body, "message")) || !IsSet(env.apiKey)
    ensures !Truthy(Field(body, "message")) ==> s == Respond(Response(400, Failure(MessageRequiredText)))
    ensures Truthy(Field(body, "message")) && !IsSet(env.apiKey) ==>
              s == Respond(Response(500, Failure(ConfigErrorText)))
    ensures s.Call? ==> s.request.apiKey == env.apiKey.value && s.request.model == Model
    ensures s.Call? ==> s.request.url == if IsSet(env.baseUrl) then env.baseUrl.value else DefaultBaseUrl
    ensures s.Call? ==> s.request.messages == Conversation(Field(body, "message"))
  {
    var message := Field(body, "message");
    if !Truthy(message) then Respond(Response(400, Failure(MessageRequiredText)))
    else if !IsSet(env.apiKey) then Respond(Response(500, Failure(ConfigErrorText)))
    else
      var url := if IsSet(env.baseUrl) then env.baseUrl.value else DefaultBaseUrl;
      Call(Outbound(url, env.apiKey.value, Model, Conversation(message)))
  }

  /** axios rejects every non-2xx status; every throw lands in the one `catch`. */
  function Relay(u: Upstream): Response {
    match u
    case TransportError => Response(500, Failure(ProcessingErrorText))
    case Responded(status, c) =>
      if !IsSuccess(status) then Response(500, Failure(ProcessingErrorText))
      else match JsReply(c)
        case Some(v) => Response(200, Reply(v))
        case None => Response(500, Failure(ProcessingErrorText))
  }

  /**
   * `POST /api/chat`. A falsy message gets 400 and a missing key 500, both
   * before any call. After the call, every failure (transport, any non-2xx
   * status, a body that is not JSON or has no `choices`) is the same 500; a 2xx
   * body with `choices` answers 200 with the first choice's content when it is
   * truthy and the fixed apology otherwise, so a 200 reply is never falsy.
   */
  function Chat(body: map<string, JsonValue>, env: Env, upstream: Upstream): (r: Response)
    ensures !Truthy(Field(body, "message")) ==> r == Response(400, Failure(MessageRequiredText))
    ensures Truthy(Field(body, "message")) && !IsSet(env.apiKey) ==> r == Response(500, Failure(ConfigErrorText))
    ensures Truthy(Field(body, "message")) && IsSet(env.apiKey) ==>
              && (r.status == 200 <==> Delivered(upstream) && !ChoicesAbsent(upstream))
              && (r.status != 200 ==> r == Response(500, Failure(ProcessingErrorText)))
              && (HasFirstContent(upstream) && Truthy(FirstContent(upstream)) ==>
                    r == Response(200, Reply(FirstContent(upstream))))
              && (Delivered(upstream) && !ChoicesAbsent(upstream) &&
                  !(HasFirstContent(upstream) && Truthy(FirstContent(upstream)))
                  ==> r == Response(200, Reply(Str(NoReplyText))))
    ensures r.status == 200 ==> r.body.Reply? && Truthy(r.body.response)
  {
    match ChatRequest(body, env)
    case Respond(early) => early
    case Call(_) => Relay(upstream)
  }
}
