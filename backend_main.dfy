/**
 * The FastAPI back end: the question bank with its fallback, and the
 * `/api/chat`, `/api/chat/new` and `/api/checkpoint` handlers. Request bodies
 * reach the handlers already validated against their declared models, so
 * `message`, `sessionId` and `sectionId` are strings here.
 */
module BackendMain {
  import opened Wrappers
  import opened Json
  import opened QuestionBank
  import opened Http

  /** The eleven checkpoint questions, keyed by section id. */
  const Bank: map<string, QuestionRecord> := map[
    "1.1" := QuestionRecord(
      "What is the main purpose of spam classification in the context of this project?",
      [ AnswerOption("a", "To categorize emails by their sender"),
        AnswerOption("b", "To filter unwanted messages from legitimate ones"),
        AnswerOption("c", "To analyze the writing style of different authors"),
        AnswerOption("d", "To compress text data for efficient storage") ],
      "b"),
    "1.2" := QuestionRecord(
      "Which of the following is NOT one of the key steps in the spam classification process?",
      [ AnswerOption("a", "Data Collection"),
        AnswerOption("b", "Text Preprocessing"),
        AnswerOption("c", "Feature Extraction"),
        AnswerOption("d", "Image Recognition") ],
      "d"),
    "1.3" := QuestionRecord(
      "By the end of this project, what will you have built?",
      [ AnswerOption("a", "A language translation system"),
        AnswerOption("b", "A spam classification system"),
        AnswerOption("c", "A text summarization tool"),
        AnswerOption("d", "A sentiment analysis model") ],
      "b"),
    "2.1" := QuestionRecord(
      "Why is data processing crucial in an NLP pipeline?",
      [ AnswerOption("a", "It makes the text more readable for humans"),
        AnswerOption("b", "It prepares text data for machine learning algorithms"),
        AnswerOption("c", "It increases the size of the dataset"),
        AnswerOption("d", "It translates text into different languages") ],
      "b"),
    "2.2" := QuestionRecord(
      "Which of the following is a characteristic of spam messages based on the sample data?",
      [ AnswerOption("a", "They are always written in all caps"),
        AnswerOption("b", "They often contain personal information"),
        AnswerOption("c", "They frequently mention urgency or offers"),
        AnswerOption("d", "They are always shorter than ham messages") ],
      "c"),
    "2.3" := QuestionRecord(
      "Which of the following is NOT a typical text preprocessing step?",
      [ AnswerOption("a", "Lowercasing"),
        AnswerOption("b", "Tokenization"),
        AnswerOption("c", "Encryption"),
        AnswerOption("d", "Removing Stop Words") ],
      "c"),
    "3.1" := QuestionRecord(
      "Why is text vectorization necessary in NLP?",
      [ AnswerOption("a", "To make text more readable"),
        AnswerOption("b", "To convert text into a format that machine learning algorithms can understand"),
        AnswerOption("c", "To reduce the size of the text data"),
        AnswerOption("d", "To translate text into different languages") ],
      "b"),
    "3.2" := QuestionRecord(
      "Which of the following is NOT one of the three main text vectorization techniques discussed?",
      [ AnswerOption("a", "Bag of Words (BOW)"),
        AnswerOption("b", "TF-IDF"),
        AnswerOption("c", "Word Embeddings"),
        AnswerOption("d", "Binary Encoding") ],
      "d"),
    "3.3" := QuestionRecord(
      "What does the Bag of Words model disregard when representing text?",
      [ AnswerOption("a", "Word frequency"),
        AnswerOption("b", "Grammar and word order"),
        AnswerOption("c", "The presence of words"),
        AnswerOption("d", "All of the above") ],
      "b"),
    "4.1" := QuestionRecord(
      "Which of the following algorithms is particularly effective for text classification?",
      [ AnswerOption("a", "K-means clustering"),
        AnswerOption("b", "Principal Component Analysis (PCA)"),
        AnswerOption("c", "Naive Bayes"),
        AnswerOption("d", "Linear Regression") ],
      "c"),
    "4.2" := QuestionRecord(
      "Which of the following is NOT a common metric for evaluating classification models?",
      [ AnswerOption("a", "Accuracy"),
        AnswerOption("b", "Precision"),
        AnswerOption("c", "Mean Squared Error (MSE)"),
        AnswerOption("d", "F1-score") ],
      "c")
  ]

  /** The sections the bank covers. */
  const SectionIds: set<string> :=
    {"1.1", "1.2", "1.3", "2.1", "2.2", "2.3", "3.1", "3.2", "3.3", "4.1", "4.2"}

  const Model: string := "claude-3-7-sonnet-20250219"

  const MessageRequiredText: string := "Message is required"
  const MissingKeyText: string := "Server configuration error: API Key is missing"
  /** The fixed part of the detail for a failed call; the error text follows it. */
  const ApiCallFailedText: string := "API call failed: "
  /** The fixed part of the detail for any other exception. */
  const UnexpectedErrorText: string := "An unexpected error occurred: "
  const SessionRequiredText: string := "Session ID is required"
  const SectionRequiredText: string := "Section ID is required"

  /** Every stored record is labelled `a` to `d` and names one of them as correct. */
  lemma BankIsWellFormed()
    ensures BankWellFormed(Bank)
  {
    forall id | id in Bank ensures WellFormed(Bank[id]) {
      LabelledRecordWellFormed(Bank[id]);
    }
  }

  /** The bank holds exactly the eleven tutorial sections. */
  lemma BankCoversSections()
    ensures Bank.Keys == SectionIds
  {
  }

  /** No section stores the fallback record, so a stored question is told apart from it. */
  lemma StoredRecordsAreNotDefault(sectionId: string)
    requires sectionId in Bank
    ensures GetQuestionForSection(sectionId) != DefaultQuestion
  {
    assert Bank[sectionId].question != DefaultQuestion.question;
  }

  /**
   * `get_question_for_section`: the stored record for a known section, the
   * fallback for any other id; never raises, and always well formed.
   */
  function GetQuestionForSection(sectionId: string): (r: QuestionRecord)
    ensures sectionId in Bank ==> r == Bank[sectionId]
    ensures sectionId !in Bank ==> r == DefaultQuestion
    ensures WellFormed(r)
  {
    BankIsWellFormed();
    Lookup(Bank, sectionId)
  }

  /** `POST /api/checkpoint`: 400 for an empty id, else the looked-up record. */
  function Checkpoint(sectionId: string): (r: Response)
    ensures r.status == 200 <==> sectionId != ""
    ensures sectionId == "" ==> r == Response(400, Failure(SectionRequiredText))
    ensures r.status == 200 ==> r.body == Question(GetQuestionForSection(sectionId))
    ensures r.status == 200 ==> WellFormed(r.body.record)
  {
    if sectionId == "" then Response(400, Failure(SectionRequiredText))
    else Response(200, Question(GetQuestionForSection(sectionId)))
  }

  /** `POST /api/chat/new`: 400 for an empty id, else success echoing it. */
  function NewChat(sessionId: string): (r: Response)
    ensures r.status == 200 <==> sessionId != ""
    ensures sessionId == "" ==> r == Response(400, Failure(SessionRequiredText))
    ensures r.status == 200 ==> r.body.NewSession? && r.body.success && r.body.sessionId == Str(sessionId)
  {
    if sessionId == "" then Response(400, Failure(SessionRequiredText))
    else Response(200, NewSession(true, Str(sessionId), SessionCreatedText))
  }

  /**
   * The part of `POST /api/chat` before the outbound call: the two guards,
   * then the request. `OPENAI_BASE_URL` falls back to the OpenAI URL only when
   * it is unset; the key is mandatory.
   */
  function ChatRequest(message: string, env: Env): (s: Step)
    ensures s.Respond? <==> message == "" || !IsSet(env.apiKey)
    ensures message == "" ==> s == Respond(Response(400, Failure(MessageRequiredText)))
    ensures message != "" && !IsSet(env.apiKey) ==> s == Respond(Response(500, Failure(MissingKeyText)))
    ensures s.Call? ==> s.request.apiKey == env.apiKey.value && s.request.model == Model
    ensures s.Call? ==> s.request.url == env.baseUrl.GetOr(DefaultBaseUrl)
    ensures s.Call? ==> s.request.messages == Conversation(Str(message))
  {
    if message == "" then Respond(Response(400, Failure(MessageRequiredText)))
    else if !IsSet(env.apiKey) then Respond(Response(500, Failure(MissingKeyText)))
    else Call(Outbound(env.baseUrl.GetOr(DefaultBaseUrl), env.apiKey.value, Model, Conversation(Str(message))))
  }

  /**
   * `data["choices"][0]["message"]["content"] if "choices" in data and
   * len(data["choices"]) > 0 else "Sorry, I could not get a response."`;
   * `None` where the indexing (or decoding the body) raises.
   */
  function ExtractReply(c: Completion): Option<JsonValue> {
    match c
    case NotJson => None
    case Parsed(None) => Some(Str(NoReplyText))
    case Parsed(Some(cs)) =>
      if cs == [] then Some(Str(NoReplyText))
      else if cs[0].Message? && cs[0].content != Undefined then Some(cs[0].content)
      else None
  }

  /** The `try` around the outbound call and its three `except` clauses. */
  function Relay(u: Upstream): Response {
    match u
    case TransportError => Response(500, Failure(ApiCallFailedText))
    case Responded(status, c) =>
      if !IsSuccess(status) then Response(status, Failure(ApiCallFailedText))
      else match ExtractReply(c)
        case Some(v) => Response(200, Reply(v))
        case None => Response(500, Failure(UnexpectedErrorText))
  }

  /**
   * `POST /api/chat`. An empty message is refused with 400 and a missing key
   * with 500, both before any call; an upstream error status is passed
   * through; a transport error or an unreadable reply gives 500; otherwise the
   * first choice's content, or the fixed apology when there are no choices.
   */
  function Chat(message: string, env: Env, upstream: Upstream): (r: Response)
    ensures message == "" ==> r == Response(400, Failure(MessageRequiredText))
    ensures message != "" && !IsSet(env.apiKey) ==> r == Response(500, Failure(MissingKeyText))
    ensures message != "" && IsSet(env.apiKey) ==>
              && (upstream.TransportError? ==> r.status == 500)
              && (upstream.Responded? && !IsSuccess(upstream.status) ==> r.status == upstream.status)
              && (HasFirstContent(upstream) ==> r == Response(200, Reply(FirstContent(upstream))))
              && (ChoicesAbsent(upstream) || ChoicesEmpty(upstream) ==>
                    r == Response(200, Reply(Str(NoReplyText))))
              && (upstream.Responded? && IsSuccess(upstream.status) &&
                  !HasFirstContent(upstream) && !ChoicesAbsent(upstream) && !ChoicesEmpty(upstream)
                  ==> r.status == 500)
    ensures r.status == 200 ==> r.body.Reply?
  {
    match ChatRequest(message, env)
    case Respond(early) => early
    case Call(_) => Relay(upstream)
  }

  /** The guards decide before the call: the upstream outcome cannot change an early answer. */
  lemma GuardsPrecedeCall(message: string, env: Env, u1: Upstream, u2: Upstream)
    requires message == "" || !IsSet(env.apiKey)
    ensures Chat(message, env, u1) == Chat(message, env, u2)
    ensures Chat(message, env, u1).status in {400, 500}
  {
  }
}
