/**
 * The Next.js `POST /api/checkpoint` route and its copy of the question
 * bank. Unlike the other two back ends it has no empty-id check: a missing or
 * empty `sectionId` gets the fallback question with status 200, and only a body
 * that cannot be parsed gets 500.
 */
module ApiCheckpoint {
  import opened Json
  import opened QuestionBank
  import opened Http

  /** This route's own copy of the eleven checkpoint questions. */
  const Bank: map<string, QuestionRecord> := map[
    "1.1" := QuestionRecord(
      "What is the main purpose of spam classification in the context of this project?",
      [ AnswerOption("a", "To categorize emails by their sender"),
        AnswerOption("b", "To filter unwanted messages from legitimate ones"),
        AnswerOption("c", "To analyze the writing style of different authors"),
        AnswerOption("d", "To compress text data for efficient storage") ],
      "b"),
    "1.2" := QuestionRecord(
      "Which of the following is NOT one of the key steps in the spam classification process?",
      [ AnswerOption("a", "Data Collection"),
        AnswerOption("b", "Text Preprocessing"),
        AnswerOption("c", "Feature Extraction"),
        AnswerOption("d", "Image Recognition") ],
      "d"),
    "1.3" := QuestionRecord(
      "By the end of this project, what will you have built?",
      [ AnswerOption("a", "A language translation system"),
        AnswerOption("b", "A spam classification system"),
        AnswerOption("c", "A text summarization tool"),
        AnswerOption("d", "A sentiment analysis model") ],
      "b"),
    "2.1" := QuestionRecord(
      "Why is data processing crucial in an NLP pipeline?",
      [ AnswerOption("a", "It makes the text more readable for humans"),
        AnswerOption("b", "It prepares text data for machine learning algorithms"),
        AnswerOption("c", "It increases the size of the dataset"),
        AnswerOption("d", "It translates text into different languages") ],
      "b"),
    "2.2" := QuestionRecord(
      "Which of the following is a characteristic of spam messages based on the sample data?",
      [ AnswerOption("a", "They are always written in all caps"),
        AnswerOption("b", "They often contain personal information"),
        AnswerOption("c", "They frequently mention urgency or offers"),
        AnswerOption("d", "They are always shorter than ham messages") ],
      "c"),
    "2.3" := QuestionRecord(
      "Which of the following is NOT a typical text preprocessing step?",
      [ AnswerOption("a", "Lowercasing"),
        AnswerOption("b", "Tokenization"),
        AnswerOption("c", "Encryption"),
        AnswerOption("d", "Removing Stop Words") ],
      "c"),
    "3.1" := QuestionRecord(
      "Why is text vectorization necessary in NLP?",
      [ AnswerOption("a", "To make text more readable"),
        AnswerOption("b", "To convert text into a format that machine learning algorithms can understand"),
        AnswerOption("c", "To reduce the size of the text data"),
        AnswerOption("d", "To translate text into different languages") ],
      "b"),
    "3.2" := QuestionRecord(
      "Which of the following is NOT one of the three main text vectorization techniques discussed?",
      [ AnswerOption("a", "Bag of Words (BOW)"),
        AnswerOption("b", "TF-IDF"),
        AnswerOption("c", "Word Embeddings"),
        AnswerOption("d", "Binary Encoding") ],
      "d"),
    "3.3" := QuestionRecord(
      "What does the Bag of Words model disregard when representing text?",
      [ AnswerOption("a", "Word frequency"),
        AnswerOption("b", "Grammar and word order"),
        AnswerOption("c", "The presence of words"),
        AnswerOption("d", "All of the above") ],
      "b"),
    "4.1" := QuestionRecord(
      "Which of the following algorithms is particularly effective for text classification?",
      [ AnswerOption("a", "K-means clustering"),
        AnswerOption("b", "Principal Component Analysis (PCA)"),
        AnswerOption("c", "Naive Bayes"),
        AnswerOption("d", "Linear Regression") ],
      "c"),
    "4.2" := QuestionRecord(
      "Which of the following is NOT a common metric for evaluating classification models?",
      [ AnswerOption("a", "Accuracy"),
        AnswerOption("b", "Precision"),
        AnswerOption("c", "Mean Squared Error (MSE)"),
        AnswerOption("d", "F1-score") ],
      "c")
  ]

  const FailedText: string := "Failed to process request"

  lemma BankIsWellFormed()
    ensures BankWellFormed(Bank)
  {
    forall id | id in Bank ensures WellFormed(Bank[id]) {
      LabelledRecordWellFormed(Bank[id]);
    }
  }

  /** The bank holds exactly the eleven tutorial sections. */
  lemma BankCoversSections()
    ensures Bank.Keys == {"1.1", "1.2", "1.3", "2.1", "2.2", "2.3", "3.1", "3.2", "3.3", "4.1", "4.2"}
  {
  }

  /**
   * `getQuestionForSection`: a string key of the bank finds its record; any
   * other value (a missing or empty id included) gets the fallback.
   */
  function GetQuestionForSection(sectionId: JsonValue): (r: QuestionRecord)
    ensures sectionId.Str? && sectionId.s in Bank ==> r == Bank[sectionId.s]
    ensures !(sectionId.Str? && sectionId.s in Bank) ==> r == DefaultQuestion
    ensures WellFormed(r)
  {
    BankIsWellFormed();
    LookupValue(Bank, sectionId)
  }

  /** `POST`: 500 when the body cannot be parsed, else 200 with the looked-up record. */
  function Post(body: RequestBody): (r: Response)
    ensures r.status == 200 <==> body.Fields?
    ensures body.Malformed? ==> r == Response(500, Failure(FailedText))
    ensures body.Fields? ==> r.body == Question(GetQuestionForSection(Field(body.fields, "sectionId")))
    ensures r.status == 200 ==> WellFormed(r.body.record)
  {
    match body
    case Malformed => Response(500, Failure(FailedText))
    case Fields(fields) => Response(200, Question(GetQuestionForSection(Field(fields, "sectionId"))))
  }

  /** There is no empty-id check: an absent or empty `sectionId` is served the fallback with 200. */
  lemma EmptyIdServesFallback(fields: map<string, JsonValue>)
    requires Field(fields, "sectionId") in {Undefined, Str("")}
    ensures Post(Fields(fields)) == Response(200, Question(DefaultQuestion))
  {
    BankCoversSections();
  }
}
