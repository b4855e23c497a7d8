/**
 * How the three back ends and the two components fit together: the bank
 * copies agree where they overlap, the chat handlers agree on ordinary
 * answers and differ on failures, and what the components receive from any
 * back end is something they can display.
 */
module Agreement {
  import opened Wrappers
  import opened Json
  import opened JsStrings
  import opened QuestionBank
  import opened Http
  import BackendMain
  import Server
  import ApiCheckpoint
  import ApiChat
  import Quiz = CheckpointQuestionComponent
  import Chat = ChatInterfaceComponent

  /** The Next.js route's bank is the FastAPI bank, record for record. */
  lemma CheckpointBanksAgree()
    ensures ApiCheckpoint.Bank == BackendMain.Bank
  {
  }

  /** For every string id, the Next.js lookup returns the FastAPI record. */
  lemma CheckpointLookupsAgree(sectionId: string)
    ensures ApiCheckpoint.GetQuestionForSection(Str(sectionId)) == BackendMain.GetQuestionForSection(sectionId)
  {
    CheckpointBanksAgree();
  }

  /** The Express bank's two records are the FastAPI records for the same sections. */
  lemma ServerBankIsPrefix()
    ensures forall id :: id in Server.Bank ==> id in BackendMain.Bank && Server.Bank[id] == BackendMain.Bank[id]
  {
  }

  /**
   * Beyond sections 1.1 and 1.2 the Express lookup falls back where the
   * FastAPI lookup finds a stored question, which is a different one.
   */
  lemma ServerFallsBackBeyondFirstTwo(sectionId: string)
    requires sectionId in BackendMain.Bank && sectionId != "1.1" && sectionId != "1.2"
    ensures Server.GetQuestionForSection(Str(sectionId)) == DefaultQuestion
    ensures BackendMain.GetQuestionForSection(sectionId) != DefaultQuestion
  {
    Server.OnlyFirstTwoSectionsStored(Str(sectionId));
    BackendMain.StoredRecordsAreNotDefault(sectionId);
  }

  /** An empty section id: 400 from FastAPI and Express, the fallback with 200 from Next.js. */
  lemma EmptySectionIdDiverges()
    ensures BackendMain.Checkpoint("").status == 400
    ensures Server.Checkpoint(map["sectionId" := Str("")]).status == 400
    ensures ApiCheckpoint.Post(Fields(map["sectionId" := Str("")])) == Response(200, Question(DefaultQuestion))
  {
    ApiCheckpoint.EmptyIdServesFallback(map["sectionId" := Str("")]);
  }

  /**
   * Fully configured, and given an upstream 2xx whose first choice carries a
   * non-empty string, all three chat handlers answer 200 with that string.
   */
  lemma ChatHandlersAgreeOnAnswers(message: string, env: Env, u: Upstream)
    requires message != "" && IsSet(env.apiKey) && IsSet(env.baseUrl)
    requires HasFirstContent(u) && FirstContent(u).Str? && FirstContent(u).s != ""
    ensures BackendMain.Chat(message, env, u) == Response(200, Reply(FirstContent(u)))
    ensures Server.Chat(map["message" := Str(message)], env, u) == Response(200, Reply(FirstContent(u)))
    ensures ApiChat.Handler(HttpRequest("POST", Fields(map["message" := Str(message)])), env, u)
            == Response(200, Reply(FirstContent(u)))
  {
  }

  /**
   * Where the handlers differ: a 2xx body without `choices` is an apology with
   * 200 from FastAPI but 500 from both JavaScript handlers; an upstream 404 is
   * passed on by FastAPI and Next.js but becomes 500 in Express.
   */
  lemma ChatHandlersDivergeOnFailures(message: string, env: Env)
    requires message != "" && IsSet(env.apiKey) && IsSet(env.baseUrl)
    ensures BackendMain.Chat(message, env, Responded(200, Parsed(None))) == Response(200, Reply(Str(NoReplyText)))
    ensures Server.Chat(map["message" := Str(message)], env, Responded(200, Parsed(None))).status == 500
    ensures ApiChat.Handler(HttpRequest("POST", Fields(map["message" := Str(message)])), env,
                            Responded(200, Parsed(None))).status == 500
    ensures BackendMain.Chat(message, env, Responded(404, NotJson)).status == 404
    ensures Server.Chat(map["message" := Str(message)], env, Responded(404, NotJson)).status == 500
    ensures ApiChat.Handler(HttpRequest("POST", Fields(map["message" := Str(message)])), env,
                            Responded(404, NotJson)).status == 404
  {
    assert !HasFirstContent(Responded(200, Parsed(None)));
  }

  /**
   * Whatever back end serves `/api/checkpoint`, a question the component
   * loads is well formed: its options are `a` to `d` and its answer is one
   * of them.
   */
  lemma LoadedQuestionsAreWellFormed(sectionId: string, fields: map<string, JsonValue>, body: RequestBody)
    ensures Quiz.OutcomeOf(BackendMain.Checkpoint(sectionId)).Loaded? ==>
              WellFormed(Quiz.OutcomeOf(BackendMain.Checkpoint(sectionId)).record)
    ensures Quiz.OutcomeOf(Server.Checkpoint(fields)).Loaded? ==>
              WellFormed(Quiz.OutcomeOf(Server.Checkpoint(fields)).record)
    ensures Quiz.OutcomeOf(ApiCheckpoint.Post(body)).Loaded? ==>
              WellFormed(Quiz.OutcomeOf(ApiCheckpoint.Post(body)).record)
  {
  }

  /**
   * Input the chat component sends is never refused by a back end's
   * message guard: it is non-blank, hence a non-empty string.
   */
  lemma SentInputPassesMessageGuards(input: string, env: Env)
    requires !IsBlank(input)
    ensures BackendMain.ChatRequest(input, env) != Respond(Response(400, Failure(BackendMain.MessageRequiredText)))
    ensures Server.ChatRequest(map["message" := Str(input)], env)
            != Respond(Response(400, Failure(Server.MessageRequiredText)))
    ensures ApiChat.HandlerRequest(HttpRequest("POST", Fields(map["message" := Str(input)])), env)
            != Respond(Response(400, Failure(ApiChat.MessageRequiredText)))
  {
    BlankIffAllWhiteSpace(input);
    var body := map["message" := Str(input)];
    assert Field(body, "message") == Str(input);
    assert input != "" && Truthy(Str(input));
  }

  /**
   * A 200 from either JavaScript chat handler is shown verbatim: its reply is
   * truthy, so the component's own apology never replaces it.
   */
  lemma JsRepliesShownVerbatim(req: HttpRequest, body: map<string, JsonValue>, env: Env, u: Upstream)
    ensures ApiChat.Handler(req, env, u).status == 200 ==>
              Chat.ReplyContent(Chat.OutcomeOf(ApiChat.Handler(req, env, u))) == ApiChat.Handler(req, env, u).body.response
    ensures Server.Chat(body, env, u).status == 200 ==>
              Chat.ReplyContent(Chat.OutcomeOf(Server.Chat(body, env, u))) == Server.Chat(body, env, u).body.response
  {
  }

  /**
   * FastAPI may answer 200 with an empty reply (an empty `content`); the
   * component then shows its own apology instead.
   */
  lemma EmptyPythonReplyReplaced(message: string, env: Env)
    requires message != "" && IsSet(env.apiKey)
    ensures Chat.ReplyContent(Chat.OutcomeOf(BackendMain.Chat(message, env, Responded(200, Parsed(Some([Message(Str(""))]))))))
            == Str(Chat.EmptyReplyText)
  {
    assert HasFirstContent(Responded(200, Parsed(Some([Message(Str(""))]))));
  }
}
