/**
 * The `ChatInterface` component: the message log, the input box and the
 * loading flag; `sendMessage` split at its `await` into `StartSend` and
 * `FinishSend`; the Send button and the Enter key; and the keyword classifier
 * `simulateApiResponse`, which the component defines but never calls.
 */
module ChatInterfaceComponent {
  import opened Wrappers
  import opened Json
  import opened JsStrings
  import opened Http

  /**
   * One entry of the log. `sentAt` is the `Date.now()` reading that gives both
   * the message's id and its timestamp; `content` is whatever the component
   * stored, which for replies is the back end's JSON value.
   */
  datatype ChatMessage = ChatMessage(sentAt: nat, content: JsonValue, isUser: bool)

  /** How the `fetch("/api/chat")` of `sendMessage` ends: `data.response`, or a throw. */
  datatype ChatOutcome = Answered(response: JsonValue) | RequestFailed

  /** What `sendMessage` makes of a back end's answer: `data.response` when `response.ok`. */
  function OutcomeOf(r: Response): ChatOutcome {
    if !IsSuccess(r.status) then RequestFailed
    else if r.body.Reply? then Answered(r.body.response)
    else Answered(Undefined)
  }

  const EmptyReplyText: string := "Sorry, I couldn't process your request."
  const ErrorReplyText: string := "Sorry, there was an error processing your request. Please try again."

  /**
   * The content of the assistant message a send appends: the reply when it
   * is truthy, a fixed apology for a falsy reply, the error text for a
   * failed request. It is never falsy.
   */
  function ReplyContent(outcome: ChatOutcome): (c: JsonValue)
    ensures Truthy(c)
    ensures outcome.Answered? && Truthy(outcome.response) ==> c == outcome.response
    ensures outcome.Answered? && !Truthy(outcome.response) ==> c == Str(EmptyReplyText)
    ensures outcome.RequestFailed? ==> c == Str(ErrorReplyText)
  {
    match outcome
    case Answered(response) => if Truthy(response) then response else Str(EmptyReplyText)
    case RequestFailed => Str(ErrorReplyText)
  }

  class ChatInterface {
    var messages: seq<ChatMessage>
    var inputValue: string
    var isLoading: bool

    /** The initial `useState` values. */
    constructor()
      ensures messages == [] && inputValue == "" && !isLoading
    {
      messages, inputValue, isLoading := [], "", false;
    }

    /** The input box's `onChange`. */
    method SetInput(value: string)
      modifies this`inputValue
      ensures inputValue == value
    {
      inputValue := value;
    }

    /**
     * `sendMessage` up to its `await`. Blank input changes nothing and posts
     * nothing; otherwise the untrimmed input is appended as a user message and
     * posted, the input is cleared and loading starts.
     */
    method StartSend(now: nat) returns (posted: Option<JsonValue>)
      modifies this`messages, this`inputValue, this`isLoading
      ensures IsBlank(old(inputValue)) ==> posted == None && unchanged(this)
      ensures !IsBlank(old(inputValue)) ==>
                && posted == Some(Str(old(inputValue)))
                && messages == old(messages) + [ChatMessage(now, Str(old(inputValue)), true)]
                && inputValue == "" && isLoading
    {
      if IsBlank(inputValue) {
        return None;
      }
      posted := Some(Str(inputValue));
      messages := messages + [ChatMessage(now, Str(inputValue), true)];
      inputValue := "";
      isLoading := true;
    }

    /**
     * `sendMessage` after its `await`: exactly one assistant message is
     * appended, and loading ends whatever the outcome.
     */
    method FinishSend(outcome: ChatOutcome, now: nat)
      modifies this`messages, this`isLoading
      ensures messages == old(messages) + [ChatMessage(now, ReplyContent(outcome), false)]
      ensures !isLoading
    {
      messages := messages + [ChatMessage(now, ReplyContent(outcome), false)];
      isLoading := false;
    }

    /**
     * A whole `sendMessage` with nothing interleaved: a non-blank input adds
     * the user message and then the assistant message, and nothing else
     * changes in the log.
     */
    method SendMessage(sentAt: nat, outcome: ChatOutcome, repliedAt: nat)
      modifies this`messages, this`inputValue, this`isLoading
      ensures IsBlank(old(inputValue)) ==> unchanged(this)
      ensures !IsBlank(old(inputValue)) ==>
                && messages == old(messages) + [ChatMessage(sentAt, Str(old(inputValue)), true),
                                                ChatMessage(repliedAt, ReplyContent(outcome), false)]
                && inputValue == "" && !isLoading
    {
      ghost var before := messages;
      ghost var blank := IsBlank(inputValue);
      ghost var user := ChatMessage(sentAt, Str(inputValue), true);
      ghost var reply := ChatMessage(repliedAt, ReplyContent(outcome), false);
      var posted := StartSend(sentAt);
      if posted.Some? {
        assert !blank && messages == before + [user];
        FinishSend(outcome, repliedAt);
        assert messages == before + [user] + [reply];
        assert before + [user] + [reply] == before + [user, reply];
      }
    }

    /** The Send button's `disabled={isLoading || !inputValue.trim()}`, negated. */
    predicate SendEnabled()
      reads this
    {
      !isLoading && !IsBlank(inputValue)
    }

    /** A click on the Send button: `sendMessage` only when the button is enabled. */
    method ClickSend(now: nat) returns (posted: Option<JsonValue>)
      modifies this`messages, this`inputValue, this`isLoading
      ensures !old(SendEnabled()) ==> posted == None && unchanged(this)
      ensures old(SendEnabled()) ==>
                && posted == Some(Str(old(inputValue)))
                && messages == old(messages) + [ChatMessage(now, Str(old(inputValue)), true)]
                && inputValue == "" && isLoading
    {
      posted := None;
      if SendEnabled() {
        posted := StartSend(now);
      }
    }

    /**
     * `handleKeyDown`: Enter without Shift calls `sendMessage` directly, so
     * unlike the button it also sends while a reply is still loading.
     */
    method PressKey(key: string, shiftKey: bool, now: nat) returns (posted: Option<JsonValue>)
      modifies this`messages, this`inputValue, this`isLoading
      ensures !(key == "Enter" && !shiftKey) ==> posted == None && unchanged(this)
      ensures IsBlank(old(inputValue)) ==> posted == None && unchanged(this)
      ensures key == "Enter" && !shiftKey && !IsBlank(old(inputValue)) ==>
                && posted == Some(Str(old(inputValue)))
                && messages == old(messages) + [ChatMessage(now, Str(old(inputValue)), true)]
                && inputValue == "" && isLoading
    {
      posted := None;
      if key == "Enter" && !shiftKey {
        posted := StartSend(now);
      }
    }
  }

  const VectorReply: string :=
    "Text vectorization is the process of converting text into numerical vectors that can be used "
    + "by machine learning algorithms. The three main approaches are Bag of Words (BOW), TF-IDF, and "
    + "Word Embeddings."
  const TfIdfReply: string :=
    "TF-IDF (Term Frequency-Inverse Document Frequency) is a numerical statistic that reflects how "
    + "important a word is to a document in a collection. It weighs terms based on how frequently they "
    + "appear in a document and how rarely they appear across all documents."
  const HelpReply: string :=
    "I'm here to help with your questions about text vectorization and spam classification. "
    + "What would you like to know?"

  /** A message that mentions "vectorization" mentions "vector". */
  lemma VectorizationMentionsVector(s: string)
    ensures Contains(s, "vectorization") ==> Contains(s, "vector")
  {
    if Contains(s, "vectorization") {
      ContainsPrefix(s, "vectorization", 6);
      assert "vectorization"[..6] == "vector";
    }
  }

  /**
   * `simulateApiResponse` without its delay. The "vector" test comes first, so
   * a message naming both vectors and TF-IDF gets the vectorization reply; its
   * second test, for "vectorization", can never decide anything.
   */
  function SimulateApiResponse(message: string): (reply: string)
    ensures reply == VectorReply <==> Contains(ToLower(message), "vector")
    ensures reply == TfIdfReply <==>
              !Contains(ToLower(message), "vector") && Contains(ToLower(message), "tf-idf")
    ensures reply == HelpReply <==>
              !Contains(ToLower(message), "vector") && !Contains(ToLower(message), "tf-idf")
  {
    var lower := ToLower(message);
    VectorizationMentionsVector(lower);
    if Contains(lower, "vector") || Contains(lower, "vectorization") then VectorReply
    else if Contains(lower, "tf-idf") then TfIdfReply
    else HelpReply
  }
}
